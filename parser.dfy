/**
 The response parser: looks in the generated answer for the sentinel line
 `SEARCH: <query>` that asks for a product lookup, and extracts the query.
 */
module ResponseParser {
  import opened Wrappers
  import opened PyStr

  /** The sentinel that opens a product-lookup line. */
  const Sentinel: string := "SEARCH:"

  /**
   What the parse yields: no sentinel anywhere in the answer, a query taken
   from the first sentinel line, or the `IndexError` raised when the sentinel
   occurs in the answer but no line starts with it.
   */
  datatype ParseOutcome = NoSearch | Search(query: string) | IndexError

  /** `[line for line in lines if line.startswith("SEARCH:")]`, in line order. */
  function SentinelLines(lines: seq<string>): (found: seq<string>)
    ensures forall k :: 0 <= k < |found| ==> StartsWith(found[k], Sentinel)
    ensures found == [] <==> !HasSentinelLine(lines)
    ensures found != [] ==> exists k :: FirstSentinelLine(lines, k) && found[0] == lines[k]
  {
    if lines == [] then
      []
    else if StartsWith(lines[0], Sentinel) then
      assert FirstSentinelLine(lines, 0);
      [lines[0]] + SentinelLines(lines[1..])
    else
      var rest := SentinelLines(lines[1..]);
      assert rest == [] <==> !HasSentinelLine(lines) by {
        assert forall k :: 0 < k < |lines| ==> lines[k] == lines[1..][k - 1];
      }
      assert rest != [] ==> exists k :: FirstSentinelLine(lines, k) && rest[0] == lines[k] by {
        if rest != [] {
          var k :| FirstSentinelLine(lines[1..], k) && rest[0] == lines[1..][k];
          assert FirstSentinelLine(lines, k + 1);
        }
      }
      rest
  }

  /** The filter keeps a line exactly when it is one of the lines and starts with the sentinel. */
  lemma {:induction false} SentinelLinesMembers(lines: seq<string>)
    ensures forall x :: x in SentinelLines(lines) <==> x in lines && StartsWith(x, Sentinel)
  {
    if lines != [] {
      SentinelLinesMembers(lines[1..]);
      assert lines == [lines[0]] + lines[1..];
    }
  }

  /** One line is kept exactly when it starts with the sentinel. */
  lemma SentinelLinesOne(line: string)
    ensures SentinelLines([line]) == if StartsWith(line, Sentinel) then [line] else []
  {
    assert [line][1..] == [];
  }

  /** The filter keeps the line order: filtering two runs of lines filters each and concatenates. */
  lemma {:induction false} SentinelLinesAppend(a: seq<string>, b: seq<string>)
    ensures SentinelLines(a + b) == SentinelLines(a) + SentinelLines(b)
  {
    if a == [] {
      assert a + b == b;
    } else {
      assert (a + b)[0] == a[0] && (a + b)[1..] == a[1..] + b;
      SentinelLinesAppend(a[1..], b);
    }
  }

  /** Some line starts with the sentinel. */
  ghost predicate HasSentinelLine(lines: seq<string>) {
    exists k :: 0 <= k < |lines| && StartsWith(lines[k], Sentinel)
  }

  /** Line `k` starts with the sentinel and no line before it does. */
  ghost predicate FirstSentinelLine(lines: seq<string>, k: int) {
    0 <= k < |lines| && StartsWith(lines[k], Sentinel)
    && forall j :: 0 <= j < k ==> !StartsWith(lines[j], Sentinel)
  }

  /** Turns the chosen line into the query: every sentinel occurrence removed, then `strip()`. */
  function CleanQuery(line: string): (query: string)
    ensures |query| <= |line|
    ensures query != [] ==> !IsSpace(query[0]) && !IsSpace(query[|query| - 1])
  {
    Strip(RemoveAll(line, Sentinel))
  }

  /**
   The parse of one answer (app.py, the turn's `if "SEARCH:" in full_response`
   branch): test for the sentinel anywhere, split into lines, take the first
   line that starts with it, and clean it.
   */
  function ParseResponse(text: string): ParseOutcome {
    if !Contains(text, Sentinel) then
      NoSearch
    else
      var found := SentinelLines(Split(text, '\n'));
      if found == [] then IndexError else Search(CleanQuery(found[0]))
  }

  /**
   The three outcomes, each by what the answer holds: no search exactly when
   the sentinel occurs nowhere; the `IndexError` exactly when it occurs but no
   line starts with it (it sits only inside lines); and otherwise a query,
   exactly when some line starts with the sentinel, taken from the first such
   line.
   */
  lemma OutcomeCases(text: string)
    ensures ParseResponse(text) == NoSearch <==> !Contains(text, Sentinel)
    ensures ParseResponse(text) == IndexError <==> Contains(text, Sentinel) && !HasSentinelLine(Split(text, '\n'))
    ensures ParseResponse(text).Search? <==> HasSentinelLine(Split(text, '\n'))
    ensures ParseResponse(text).Search? ==>
      exists k :: FirstSentinelLine(Split(text, '\n'), k) && ParseResponse(text).query == CleanQuery(Split(text, '\n')[k])
  {
    var lines := Split(text, '\n');
    if HasSentinelLine(lines) {
      var k :| 0 <= k < |lines| && StartsWith(lines[k], Sentinel);
      assert OccursAt(lines[k], Sentinel, 0);
      ContainsInJoin(lines, "\n", k, Sentinel);
    }
  }

  /**
   First sentinel line wins: for an answer made of lines, the query comes from
   the first line that starts with the sentinel, whatever the lines after it hold.
   */
  lemma FirstSentinelLineWins(lines: seq<string>, k: nat)
    requires forall j :: 0 <= j < |lines| ==> '\n' !in lines[j]
    requires FirstSentinelLine(lines, k)
    ensures ParseResponse(Join(lines, "\n")) == Search(CleanQuery(lines[k]))
  {
    var text := Join(lines, "\n");
    SplitJoin(lines, '\n');
    assert Split(text, '\n') == lines;
    OutcomeCases(text);
    assert HasSentinelLine(lines);
    var r := ParseResponse(text);
    var k' :| FirstSentinelLine(lines, k') && r.query == CleanQuery(lines[k']);
    assert k' == k;
  }

  /** A line with the sentinel at its start and nowhere else gives the rest of the line, stripped. */
  lemma CleanSingleSentinel(rest: string)
    requires !Contains(rest, Sentinel)
    ensures CleanQuery(Sentinel + rest) == Strip(rest)
  {
    var line := Sentinel + rest;
    assert line[..|Sentinel|] == Sentinel && line[|Sentinel|..] == rest;
    RemoveAllAbsent(rest, Sentinel);
  }

  /**
   Every occurrence of the sentinel is removed from the chosen line, not only
   the leading one: a second sentinel later in the line is dropped too, and the
   text around it is kept.
   */
  lemma CleanRepeatedSentinel(a: string, b: string)
    requires !Contains(a + Sentinel[..|Sentinel| - 1], Sentinel)
    requires !Contains(b, Sentinel)
    ensures CleanQuery(Sentinel + a + Sentinel + b) == Strip(a + b)
  {
    var line := Sentinel + a + Sentinel + b;
    assert line[..|Sentinel|] == Sentinel && line[|Sentinel|..] == a + Sentinel + b;
    RemoveAllOccurrence(a, b, Sentinel);
    RemoveAllAbsent(b, Sentinel);
  }

  /**
   An answer whose second line is a clean sentinel line yields that line's
   query, stripped, whatever follows it (further sentinel lines included).
   */
  lemma SentinelSecondLine(pre: string, q: string, post: string)
    requires '\n' !in pre && '\n' !in q
    requires !StartsWith(pre, Sentinel) && !Contains(q, Sentinel)
    ensures ParseResponse(pre + "\n" + (Sentinel + q) + "\n" + post) == Search(Strip(q))
  {
    var lines := [pre, Sentinel + q] + Split(post, '\n');
    SecondLineLayout(pre, Sentinel + q, post);
    SecondLineFirst(pre, Sentinel + q, Split(post, '\n'));
    FirstSentinelLineWins(lines, 1);
    CleanSingleSentinel(q);
  }

  /** A sentinel line behind a first line that is not one is the first sentinel line. */
  lemma SecondLineFirst(a: string, b: string, rest: seq<string>)
    requires !StartsWith(a, Sentinel) && |b| >= |Sentinel| && b[..|Sentinel|] == Sentinel
    ensures FirstSentinelLine([a, b] + rest, 1)
  {
  }

  /** The lines of `a + "\n" + b + "\n" + post`, when `a` and `b` hold no line break. */
  lemma SecondLineLayout(a: string, b: string, post: string)
    requires '\n' !in a && '\n' !in b
    ensures Join([a, b] + Split(post, '\n'), "\n") == a + "\n" + b + "\n" + post
    ensures forall j :: 0 <= j < |[a, b] + Split(post, '\n')| ==> '\n' !in ([a, b] + Split(post, '\n'))[j]
  {
    var tail := Split(post, '\n');
    var lines := [a, b] + tail;
    JoinAppend([a, b], tail, "\n");
    assert [a, b][1..] == [b];
    forall j | 0 <= j < |lines|
      ensures '\n' !in lines[j]
    {
      if j >= 2 {
        assert lines[j] == tail[j - 2];
      }
    }
  }

  /**
   The sentinel in mid-line only: the filtered list of sentinel lines is
   empty and taking its first element raises `IndexError`.
   */
  lemma ExampleMidLineSentinel(text: string)
    requires text == "Try this: SEARCH: toner"
    ensures ParseResponse(text) == IndexError
  {
    assert OccursAt(text, Sentinel, 10);
    SplitNoSeparator(text, '\n');
    assert !StartsWith(text, Sentinel) by { assert text[0] != Sentinel[0]; }
    OutcomeCases(text);
  }
}
