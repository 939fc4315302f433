/** The absent-or-present value used for the plugin's optional inputs. */
module Wrappers {

  datatype Option<+T> = None | Some(value: T)
}
