/** The tracer of package trace: either writes one line per call to its output
    or ignores the call. The output itself is kept as the list of lines
    written so far. */
module Tracing {

  datatype Tracer =
    | Off   // the nilTracer returned by trace.Off()
    | On    // the tracer returned by trace.New(w)

  /** One call of Trace(line): `fmt.Fprint` of string operands concatenates
      them without separators, then `fmt.Fprintln` ends the line. */
  function Trace(t: Tracer, out: seq<string>, line: string): (r: seq<string>)
    ensures t == Off ==> r == out
    ensures t == On ==> |r| == |out| + 1 && r[..|out|] == out && r[|out|] == line
  {
    match t
    case Off => out
    case On => out + [line]
  }

  /** `n` successive calls of Trace(line). */
  function TraceTimes(t: Tracer, out: seq<string>, line: string, n: nat): (r: seq<string>)
  {
    if n == 0 then out else Trace(t, TraceTimes(t, out, line, n - 1), line)
  }

  /** An active tracer writes exactly `n` more lines, all equal to `line`; the
      no-op tracer writes nothing. */
  lemma {:induction false} TraceTimesLines(t: Tracer, out: seq<string>, line: string, n: nat)
    ensures t == Off ==> TraceTimes(t, out, line, n) == out
    ensures t == On ==> TraceTimes(t, out, line, n) == out + seq(n, _ => line)
  {
    if n > 0 {
      TraceTimesLines(t, out, line, n - 1);
      if t == On {
        assert out + seq(n - 1, _ => line) + [line] == out + seq(n, _ => line);
      }
    }
  }
}
