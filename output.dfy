/**
 * Standard output. The sink keeps one entry per `print` call, its text
 * without the trailing newline, in the order written.
 */
module Output {
  import opened Text

  class Console {
    /** The text of every `print` call so far, oldest first. */
    var lines: seq<string>

    constructor ()
      ensures lines == []
    {
      lines := [];
    }

    /** One `print(s)`: appends `s` as a new entry and keeps all earlier ones. */
    method WriteLine(s: string)
      modifies this
      ensures lines == old(lines) + [s]
    {
      lines := lines + [s];
    }
  }

  /** The text a capture of standard output reads back: each entry followed by a newline. */
  function Captured(lines: seq<string>): (out: string)
    ensures |lines| > 0 ==> Contains(out, lines[|lines| - 1])
  {
    if lines == [] then ""
    else
      var out := Captured(lines[..|lines| - 1]) + lines[|lines| - 1] + "\n";
      ContainsInConcat(Captured(lines[..|lines| - 1]), lines[|lines| - 1], "\n");
      out
  }

  /** Every line ever printed can be found in the captured text. */
  lemma {:induction false} CapturedContainsLine(lines: seq<string>, k: nat)
    requires k < |lines|
    ensures Contains(Captured(lines), lines[k])
  {
    if k < |lines| - 1 {
      var init := lines[..|lines| - 1];
      assert init[k] == lines[k];
      CapturedContainsLine(init, k);
      assert Captured(lines) == Captured(init) + (lines[|lines| - 1] + "\n");
      ContainsPrefix(Captured(init), lines[|lines| - 1] + "\n");
      ContainsTransitive(Captured(lines), Captured(init), lines[k]);
    }
  }
}
