/** String assembly shared by the message formatters of both implementations. */
module Text {

  /** Every line followed by a newline: what `s += line + "\n"` builds in a loop. */
  function Terminated(lines: seq<string>): (s: string)
  {
    if |lines| == 0 then "" else Terminated(lines[..|lines| - 1]) + lines[|lines| - 1] + "\n"
  }

  /** JavaScript's `lines.join(sep)`. */
  function Join(lines: seq<string>, sep: string): (s: string)
  {
    if |lines| == 0 then ""
    else if |lines| == 1 then lines[0]
    else Join(lines[..|lines| - 1], sep) + sep + lines[|lines| - 1]
  }

  lemma {:induction false} TerminatedAppend(a: seq<string>, b: seq<string>)
    ensures Terminated(a + b) == Terminated(a) + Terminated(b)
    decreases |b|
  {
    if |b| == 0 {
      assert a + b == a;
    } else {
      var b' := b[..|b| - 1];
      assert (a + b)[..|a + b| - 1] == a + b';
      TerminatedAppend(a, b');
    }
  }

  /** A newline-terminated listing is the newline-joined one plus one final newline. */
  lemma {:induction false} JoinThenNewline(lines: seq<string>)
    requires |lines| > 0
    ensures Join(lines, "\n") + "\n" == Terminated(lines)
    decreases |lines|
  {
    if |lines| == 1 {
      assert lines[..0] == [];
    } else {
      JoinThenNewline(lines[..|lines| - 1]);
    }
  }

  /** SQLite's `UPPER`: ASCII letters only, every other character unchanged. */
  function UpperAscii(s: string): (r: string)
    ensures |r| == |s|
    ensures forall i :: 0 <= i < |s| ==>
      r[i] == if 'a' <= s[i] <= 'z' then (s[i] as int - 32) as char else s[i]
  {
    seq(|s|, i requires 0 <= i < |s| => if 'a' <= s[i] <= 'z' then (s[i] as int - 32) as char else s[i])
  }
}
