/** The optional value used by the decoder and by the crawl's outcome. */
module Wrappers {

  datatype Option<+T> = None | Some(value: T)
}
