/**
 * What the library writes to its output sinks. A writer (`BufWriter` in the
 * source) is modelled as the sequence of chunks written to it so far.
 */
module Output {
  import opened Graphics

  /** One write to an output sink. */
  datatype Chunk =
    | Text(text: string)               // a raw string, such as a procedure body
    | Directives(lines: seq<string>)   // directive lines, one string per line
    | Markup(ops: seq<Op>)             // serialised shapes
}
