/** Optional values: `None` stands for a C# `null` or for "no such element". */
module Options {

  datatype Option<+T> = None | Some(value: T)
}
