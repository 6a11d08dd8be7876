/** Optional values, for the game's "-1 means none" sentinels and unset display text. */
module Options {

  datatype Option<T> = None | Some(value: T)
}
