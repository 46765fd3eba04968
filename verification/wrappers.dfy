/** The optional value used throughout the model: `None` stands for "no
    command runs" (an error printed, or an exception raised before ffmpeg
    starts). */
module Wrappers {

  datatype Option<+T> = None | Some(value: T)
}
