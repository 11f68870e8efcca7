/** The shared enumeration of types.ts. */
module Types {
  /** The two generation presets: low latency, or deep reasoning. */
  datatype ModelMode = FAST | THINKING
}
