/** The worklist of one query section (api_wrapper.py line 54): the string
    `read()` returns for the input file (text mode has already turned `\r\n`
    and `\r` into `\n`), trailing newlines stripped, split at every newline,
    with duplicates removed by a Python set (whose order is arbitrary). */
module Worklist {

  const Newline: char := '\n'

  /** `text.rstrip('\n')`. */
  function StripTrailingNewlines(text: string): (r: string)
    ensures |r| <= |text| && r == text[..|r|]
    ensures |r| == 0 || r[|r| - 1] != Newline
    ensures forall i :: |r| <= i < |text| ==> text[i] == Newline
  {
    if |text| == 0 || text[|text| - 1] != Newline then text
    else StripTrailingNewlines(text[..|text| - 1])
  }

  /** `text.split('\n')`: the pieces between newlines, always at least one. */
  function Split(text: string): (pieces: seq<string>)
    ensures |pieces| >= 1
    ensures forall i :: 0 <= i < |pieces| ==> Newline !in pieces[i]
  {
    if |text| == 0 then [""]
    else
      var rest := Split(text[1..]);
      if text[0] == Newline then [""] + rest
      else [[text[0]] + rest[0]] + rest[1..]
  }

  /** `'\n'.join(pieces)`. */
  function Join(pieces: seq<string>): string
    requires |pieces| >= 1
  {
    if |pieces| == 1 then pieces[0] else pieces[0] + [Newline] + Join(pieces[1..])
  }

  /** Splitting loses nothing: joining the pieces restores the text. */
  lemma {:induction false} JoinSplit(text: string)
    ensures Join(Split(text)) == text
  {
    if |text| > 0 {
      JoinSplit(text[1..]);
      var rest := Split(text[1..]);
      if text[0] != Newline {
        if |rest| == 1 {
        } else {
          assert rest == [rest[0]] + rest[1..];
          assert ([text[0]] + rest[0]) + [Newline] + Join(rest[1..]) == [text[0]] + (rest[0] + [Newline] + Join(rest[1..]));
        }
      }
    }
  }

  /** And splitting the joined pieces gives back the pieces, when none holds a newline. */
  lemma {:induction false} SplitJoin(pieces: seq<string>)
    requires |pieces| >= 1
    requires forall i :: 0 <= i < |pieces| ==> Newline !in pieces[i]
    ensures Split(Join(pieces)) == pieces
    decreases |Join(pieces)|, |pieces[0]|
  {
    if |pieces[0]| > 0 {
      var shorter := [pieces[0][1..]] + pieces[1..];
      assert Join(shorter)  == Join(pieces)[1..] by {
        if |pieces| > 1 {
          assert shorter[1..] == pieces[1..];
        }
      }
      SplitJoin(shorter);
      assert [pieces[0][0]] + pieces[0][1..] == pieces[0];
      assert pieces == [pieces[0]] + shorter[1..];
    } else if |pieces| > 1 {
      assert Join(pieces) == [Newline] + Join(pieces[1..]);
      assert Join(pieces)[1..] == Join(pieces[1..]);
      SplitJoin(pieces[1..]);
      assert pieces == [pieces[0]] + pieces[1..];
    }
  }

  /** The input lines, before duplicates are removed. */
  function Lines(text: string): seq<string> {
    Split(StripTrailingNewlines(text))
  }

  predicate NoDuplicates<T(==)>(s: seq<T>) {
    forall i, j :: 0 <= i < j < |s| ==> s[i] != s[j]
  }

  /** `list(set(lines))`, in whatever order the set yields: each distinct line once. */
  predicate IsWorklist(items: seq<string>, text: string) {
    NoDuplicates(items) && (set x | x in items) == (set x | x in Lines(text))
  }

  /** One such order: first occurrences, in file order. */
  function Dedup<T(==)>(s: seq<T>): (r: seq<T>)
    ensures NoDuplicates(r)
    ensures (set x | x in r) == (set x | x in s)
  {
    if |s| == 0 then []
    else
      var init := s[..|s| - 1];
      var rest := Dedup(init);
      assert (set x | x in s) == (set x | x in init) + {s[|s| - 1]} by {
        assert s == init + [s[|s| - 1]];
      }
      if s[|s| - 1] in rest then rest else rest + [s[|s| - 1]]
  }

  /** A worklist always exists, and has at least one item: an empty file
      gives the single empty line. */
  lemma WorklistExists(text: string)
    ensures IsWorklist(Dedup(Lines(text)), text)
    ensures |Dedup(Lines(text))| >= 1
  {
    var lines := Lines(text);
    assert lines[0] in (set x | x in lines);
  }
}
