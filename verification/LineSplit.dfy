/** Splitting a playlist into lines in place (mystrpbrk), and restarting from a line that was returned
    earlier. */
module LineSplit {
  import opened Common
  import opened CText

  const CR: char := '\r'
  const LF: char := '\n'

  // ----- The lines of a text -------------------------------------------------------------------

  /** The first line feed from j on; |r| if there is none. */
  function LineFeed(r: string, j: nat): (n: nat)
    requires j <= |r|
    ensures j <= n <= |r| && (n < |r| ==> r[n] == LF) && forall i :: j <= i < n ==> r[i] != LF
    decreases |r| - j
  {
    if j == |r| || r[j] == LF then j else LineFeed(r, j + 1)
  }

  /** The length of the line that ends at n, without carriage returns at its end. */
  function Stripped(r: string, n: nat): (m: nat)
    requires n <= |r|
    ensures m <= n && (forall i :: m <= i < n ==> r[i] == CR) && (m > 0 ==> r[m - 1] != CR)
  {
    if n > 0 && r[n - 1] == CR then Stripped(r, n - 1) else n
  }

  /** Carriage returns are stripped in front of a line feed only. */
  function FirstLine(r: string): string {
    var n := LineFeed(r, 0);
    if n == |r| then r else r[..Stripped(r, n)]
  }

  function Lines(r: string): seq<string>
    decreases |r|
  {
    var n := LineFeed(r, 0);
    [FirstLine(r)] + if n == |r| then [] else Lines(r[n + 1..])
  }

  function NonEmpty(lines: seq<string>): seq<string> {
    if lines == [] then [] else (if lines[0] == "" then [] else [lines[0]]) + NonEmpty(lines[1..])
  }

  // ----- Texts with either kind of line end ----------------------------------------------------

  /** A line and how many carriage returns stand before its line feed. */
  datatype Written = Written(line: string, crs: nat)

  function Returns(k: nat): (r: string)
    ensures |r| == k && forall i :: 0 <= i < k ==> r[i] == CR
  {
    if k == 0 then "" else Returns(k - 1) + [CR]
  }

  predicate IsLine(line: string) {
    (forall i :: 0 <= i < |line| ==> line[i] != LF) && (line != "" ==> line[|line| - 1] != CR)
  }

  function Print(text: seq<Written>): string {
    if text == [] then "" else text[0].line + Returns(text[0].crs) + [LF] + Print(text[1..])
  }

  function LinesOf(text: seq<Written>): seq<string> {
    if text == [] then [] else [text[0].line] + LinesOf(text[1..])
  }

  lemma {:induction false} FeedAt(r: string, j: nat, n: nat)
    requires j <= n < |r| && r[n] == LF && forall i :: j <= i < n ==> r[i] != LF
    ensures LineFeed(r, j) == n
  {
  }

  lemma {:induction false} StrippedAt(r: string, n: nat, m: nat)
    requires m <= n <= |r| && (forall i :: m <= i < n ==> r[i] == CR) && (m > 0 ==> r[m - 1] != CR)
    ensures Stripped(r, n) == m
  {
  }

  /** A line, any number of carriage returns, a line feed, and more. */
  lemma {:induction false} LineThenRest(line: string, k: nat, rest: string)
    requires IsLine(line)
    ensures Lines(line + Returns(k) + [LF] + rest) == [line] + Lines(rest)
  {
    var r, n := line + Returns(k) + [LF] + rest, |line| + k;
    assert forall i :: 0 <= i < |line| ==> r[i] == line[i];
    assert forall i :: |line| <= i < n ==> r[i] == CR;
    assert r[n] == LF && r[n + 1..] == rest;
    FeedAt(r, 0, n);
    StrippedAt(r, n, |line|);
    assert r[..|line|] == line;
  }

  predicate AllLines(text: seq<Written>) {
    forall i :: 0 <= i < |text| ==> IsLine(text[i].line)
  }

  lemma {:induction false} PrintFirst(text: seq<Written>, last: string)
    requires text != [] && AllLines(text)
    ensures AllLines(text[1..]) && Lines(Print(text) + last) == [text[0].line] + Lines(Print(text[1..]) + last)
  {
    hide Lines;
    var line, rest := text[0].line, Print(text[1..]) + last;
    LineThenRest(line, text[0].crs, rest);
    assert Print(text) + last == line + Returns(text[0].crs) + [LF] + rest;
  }

  lemma {:induction false} NothingPrinted(last: string)
    requires forall i :: 0 <= i < |last| ==> last[i] != LF
    ensures Lines(Print([]) + last) == [last]
  {
    assert Print([]) + last == last;
  }

  /** The lines of a text with LF or CR-LF line ends, in any mixture, are exactly the lines written,
      and what follows the last line feed. */
  lemma {:induction false} LinesArePrinted(text: seq<Written>, last: string)
    requires AllLines(text) && forall i :: 0 <= i < |last| ==> last[i] != LF
    ensures Lines(Print(text) + last) == LinesOf(text) + [last]
    decreases |text|
  {
    hide AllLines, Lines, Print;
    if text == [] {
      NothingPrinted(last);
    } else {
      PrintFirst(text, last);
      LinesArePrinted(text[1..], last);
    }
  }

  // ----- Restarting ----------------------------------------------------------------------------

  /** The text behind the first line's terminating NUL: what a restart at the line plus its length plus
      one reads. */
  function Behind(r: string): string {
    if LineFeed(r, 0) == |r| then "" else r[|FirstLine(r)| + 1..]
  }

  lemma {:induction false} OnlyReturns(r: string, n: nat)
    requires n < |r| && r[n] == LF && forall i :: 0 <= i < n ==> r[i] == CR
    ensures Lines(r) == [""] + Lines(r[n + 1..])
  {
    FeedAt(r, 0, n);
    StrippedAt(r, n, 0);
  }

  lemma {:induction false} LinesAfter(r: string)
    requires LineFeed(r, 0) < |r|
    ensures Lines(r)[1..] == Lines(r[LineFeed(r, 0) + 1..])
  {
  }

  lemma {:induction false} BehindIs(r: string)
    ensures LineFeed(r, 0) < |r| ==>
              |FirstLine(r)| == Stripped(r, LineFeed(r, 0)) && Behind(r) == r[Stripped(r, LineFeed(r, 0)) + 1..]
    ensures LineFeed(r, 0) == |r| ==> FirstLine(r) == r && Behind(r) == ""
  {
  }

  /** The line end left behind by a stripped carriage return is an empty line of its own. */
  lemma {:induction false} LinesBehind(r: string)
    requires LineFeed(r, 0) < |r|
    ensures var rest := Lines(r[LineFeed(r, 0) + 1..]);
            Lines(Behind(r)) == rest || Lines(Behind(r)) == [""] + rest
  {
    hide Lines, FirstLine, Behind;
    BehindIs(r);
    var n := LineFeed(r, 0);
    var m := Stripped(r, n);
    if m < n {
      var b := r[m + 1..];
      OnlyReturns(b, n - m - 1);
      assert b[n - m..] == r[n + 1..];
    }
  }

  /** A restart sees the same non-empty lines as going on. */
  lemma {:induction false} RestartSeesTheSame(r: string)
    ensures NonEmpty(Lines(Behind(r))) == NonEmpty(Lines(r)[1..])
  {
    var n := LineFeed(r, 0);
    if n < |r| {
      LinesAfter(r);
      LinesBehind(r);
      hide Lines, Behind;
      var rest := Lines(r[n + 1..]);
      assert ([""] + rest)[1..] == rest;
    }
  }

  // ----- The loops -----------------------------------------------------------------------------

  /** strchr of a line feed: its position, or that of the NUL. */
  method FindLineFeed(buf: array<char>, ptr: nat, ghost r: string) returns (fin: nat)
    requires Holds(buf, ptr, r)
    ensures fin == ptr + LineFeed(r, 0) < buf.Length && (buf[fin] == LF <==> LineFeed(r, 0) < |r|)
  {
    fin := ptr;
    while buf[fin] != LF && buf[fin] != '\0'
      invariant ptr <= fin <= ptr + |r| && LineFeed(r, fin - ptr) == LineFeed(r, 0)
      decreases ptr + |r| - fin
    {
      fin := fin + 1;
    }
  }

  method StripReturns(buf: array<char>, ptr: nat, lineFeed: nat, ghost r: string) returns (fin: nat)
    requires Holds(buf, ptr, r) && ptr <= lineFeed <= ptr + |r|
    ensures fin == ptr + Stripped(r, lineFeed - ptr)
  {
    fin := lineFeed;
    while fin > ptr && buf[fin - 1] == CR
      invariant ptr <= fin <= lineFeed && Stripped(r, fin - ptr) == Stripped(r, lineFeed - ptr)
    {
      fin := fin - 1;
    }
  }

  /** b with a NUL at position m of the text r at p. */
  lemma {:induction false} Cut(b: seq<char>, b': seq<char>, p: nat, r: string, m: nat)
    requires HoldsIn(b, p, r) && m <= |r| && b' == b[p + m := '\0']
    ensures HoldsIn(b', p, r[..m])
    ensures forall n :: m < n <= |r| ==> HoldsIn(b', p + n, r[n..])
  {
    var front := r[..m];
    assert |front| == m && b'[p + m] == '\0';
    forall k | p <= k < p + m ensures b'[k] == front[k - p] != '\0' {
      assert b'[k] == b[k] && front[k - p] == r[k - p];
    }
    assert HoldsIn(b', p, front);
    forall n | m < n <= |r| ensures HoldsIn(b', p + n, r[n..]) {
      HoldsRest(b, b', p, r, p + n);
    }
  }

  /** b with a NUL at the end of the first line of the text r at p. */
  lemma {:induction false} Terminated(b: seq<char>, p: nat, r: string)
    requires HoldsIn(b, p, r)
    ensures var m, n := |FirstLine(r)|, LineFeed(r, 0);
            p + m < |b| && var b' := b[p + m := '\0'];
            && HoldsIn(b', p, FirstLine(r)) && (n == |r| ==> b' == b)
            && (n < |r| ==> HoldsIn(b', p + n + 1, r[n + 1..]) && HoldsIn(b', p + m + 1, Behind(r)))
            && (n == |r| && p + |r| + 1 < |b| && b[p + |r| + 1] == '\0' ==> HoldsIn(b', p + m + 1, Behind(r)))
  {
    BehindIs(r);
    var m, n := |FirstLine(r)|, LineFeed(r, 0);
    Cut(b, b[p + m := '\0'], p, r, m);
    if n < |r| {
      hide HoldsIn, Behind;
      assert FirstLine(r) == r[..m];
    } else {
      assert b[p + m := '\0'] == b;
    }
  }

  /** mystrpbrk: ends the line at ptr with a NUL and gives the start of the next one. Only the byte that
      ends the line changes. When there is a next line, or the text ends in two NULs, the text behind the
      line is what a restart needs. */
  method MyStrPbrk(buf: array<char>, ptr: nat, ghost r: string) returns (next: Option<nat>)
    requires Holds(buf, ptr, r)
    modifies buf
    ensures next == if LineFeed(r, 0) == |r| then None else Some(ptr + LineFeed(r, 0) + 1)
    ensures Holds(buf, ptr, FirstLine(r)) && buf[..] == old(buf[..])[ptr + |FirstLine(r)| := '\0']
    ensures next.Some? ==> Holds(buf, next.value, r[LineFeed(r, 0) + 1..])
    ensures next.Some? || (ptr + |r| + 1 < buf.Length && old(buf[ptr + |r| + 1]) == '\0') ==>
              Holds(buf, ptr + |FirstLine(r)| + 1, Behind(r))
  {
    Terminated(buf[..], ptr, r);
    BehindIs(r);
    hide HoldsIn, Behind, FirstLine;
    next := None;
    var fin := FindLineFeed(buf, ptr, r);
    if buf[fin] == LF {
      next := Some(fin + 1);
      fin := StripReturns(buf, ptr, fin, r);
      buf[fin] := '\0';
    }
  }

  /** The string at ptr. */
  method TextAt(buf: array<char>, ptr: nat, ghost r: string) returns (text: string)
    requires Holds(buf, ptr, r)
    ensures text == r
  {
    var fin := ptr;
    while buf[fin] != '\0'
      invariant ptr <= fin <= ptr + |r|
      decreases ptr + |r| - fin
    {
      fin := fin + 1;
    }
    text := buf[ptr..fin];
  }

  /** The non-empty lines from ptr on, one call of mystrpbrk for each line. */
  method RemainingLines(buf: array<char>, ptr0: nat, ghost r0: string) returns (lines: seq<string>)
    requires Holds(buf, ptr0, r0)
    modifies buf
    ensures lines == NonEmpty(Lines(r0))
  {
    var ptr := Some(ptr0);
    ghost var r := r0;
    lines := [];
    hide Holds, FirstLine, Lines, NonEmpty;
    while ptr.Some?
      invariant ptr.Some? ==> Holds(buf, ptr.value, r) && lines + NonEmpty(Lines(r)) == NonEmpty(Lines(r0))
      invariant ptr.None? ==> lines == NonEmpty(Lines(r0))
      decreases if ptr.Some? then |r| + 1 else 0
    {
      ghost var n := LineFeed(r, 0);
      NonEmptyFirst(r);
      var next := MyStrPbrk(buf, ptr.value, r);
      var line := TextAt(buf, ptr.value, FirstLine(r));
      if line != "" {
        lines := lines + [line];
      }
      ptr := next;
      r := if n < |r| then r[n + 1..] else "";
    }
  }

  lemma {:induction false} NonEmptyFirst(r: string)
    ensures var n, first := LineFeed(r, 0), if FirstLine(r) == "" then [] else [FirstLine(r)];
            NonEmpty(Lines(r)) == first + if n == |r| then [] else NonEmpty(Lines(r[n + 1..]))
  {
    hide FirstLine;
  }

  /** Restarting behind a line that was returned: at its start plus its length plus one. The non-empty
      lines read are those that were still to come. */
  method RestartBehind(buf: array<char>, fragmentURI: nat, ghost r: string) returns (lines: seq<string>)
    requires Holds(buf, fragmentURI, FirstLine(r)) && Holds(buf, fragmentURI + |FirstLine(r)| + 1, Behind(r))
    modifies buf
    ensures lines == NonEmpty(Lines(r)[1..])
  {
    hide Holds, FirstLine, Behind, Lines, NonEmpty;
    var uri := TextAt(buf, fragmentURI, FirstLine(r));
    RestartSeesTheSame(r);
    lines := RemainingLines(buf, fragmentURI + |uri| + 1, Behind(r));
  }
}
