/** Types that several of the models share. */
module Common {

  datatype Option<+T> = None | Some(value: T)

  /** bm_kick_type_t: why a client is to be moved. */
  datatype KickType = SteeringKick | StickyKick | ForceKick
}
