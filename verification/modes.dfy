/** The processor's host mode, which also selects the mapper's record shape. */
module Modes {
  /** The mode of an Amazon Neptune host; every other host has mode "". */
  const NEPTUNE_MODE := "neptune"
}
