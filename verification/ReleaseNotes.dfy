/** Sanitising a release body for display. Text is a sequence of UTF-16 code units, as JavaScript counts it. */
module ReleaseNotes {
  import opened Common

  type Unit = n: int | 0 <= n < 0x10000

  const LIMIT := 4000
  const LF: Unit := 0x0A
  const CR: Unit := 0x0D
  const ELLIPSIS: Unit := 0x2026

  /** The C0 and C1 controls that are removed; tab, line feed and carriage return are not among them. */
  predicate IsControl(u: Unit) {
    u <= 0x08 || u == 0x0B || u == 0x0C || 0x0E <= u <= 0x1F || 0x7F <= u <= 0x9F
  }

  /** The white space and line terminators `trim` removes. */
  predicate IsSpace(u: Unit) {
    || 0x09 <= u <= 0x0D || u == 0x20 || u == 0xA0 || u == 0x1680 || 0x2000 <= u <= 0x200A
    || u == 0x2028 || u == 0x2029 || u == 0x202F || u == 0x205F || u == 0x3000 || u == 0xFEFF
  }

  function Newlines(s: seq<Unit>): seq<Unit> {
    if s == [] then []
    else if s[0] == CR then [LF] + Newlines(if |s| > 1 && s[1] == LF then s[2..] else s[1..])
    else [s[0]] + Newlines(s[1..])
  }

  function Strip(s: seq<Unit>): seq<Unit> {
    if s == [] then [] else if IsControl(s[0]) then Strip(s[1..]) else [s[0]] + Strip(s[1..])
  }

  /** Shortens every run of three or more line feeds to two; `run` line feeds come right before `s`. */
  function Collapse(s: seq<Unit>, run: nat): seq<Unit> {
    if s == [] then []
    else if s[0] == LF then if run >= 2 then Collapse(s[1..], run) else [LF] + Collapse(s[1..], run + 1)
    else [s[0]] + Collapse(s[1..], 0)
  }

  function TrimStart(s: seq<Unit>): seq<Unit> {
    if s != [] && IsSpace(s[0]) then TrimStart(s[1..]) else s
  }

  function TrimEnd(s: seq<Unit>): seq<Unit> {
    if s != [] && IsSpace(s[|s| - 1]) then TrimEnd(s[..|s| - 1]) else s
  }

  function Normalize(s: seq<Unit>): seq<Unit> {
    TrimEnd(TrimStart(Collapse(Strip(Newlines(s)), 0)))
  }

  function ParseReleaseNotes(body: Option<seq<Unit>>): Option<seq<Unit>> {
    if body.None? then None
    else
      var text := Normalize(body.value);
      if text == [] then None
      else if |text| > LIMIT then Some(TrimEnd(text[..LIMIT]) + [ELLIPSIS])
      else Some(text)
  }

  // What a displayed text looks like.

  predicate NoTriple(s: seq<Unit>) {
    forall i | 0 <= i < |s| - 2 :: !(s[i] == LF && s[i + 1] == LF && s[i + 2] == LF)
  }

  predicate Plain(s: seq<Unit>) {
    forall i | 0 <= i < |s| :: s[i] != CR && !IsControl(s[i])
  }

  predicate Trimmed(s: seq<Unit>) {
    s != [] ==> !IsSpace(s[0]) && !IsSpace(s[|s| - 1])
  }

  predicate Clean(s: seq<Unit>) {
    s != [] && Plain(s) && NoTriple(s) && Trimmed(s)
  }

  lemma {:induction false} NewlinesPlain(s: seq<Unit>)
    ensures CR !in Newlines(s)
  {
    if s != [] {
      NewlinesPlain(if s[0] == CR && |s| > 1 && s[1] == LF then s[2..] else s[1..]);
    }
  }

  lemma {:induction false} StripPlain(s: seq<Unit>)
    requires CR !in s
    ensures Plain(Strip(s))
  {
    if s != [] { StripPlain(s[1..]); }
  }

  /** The number of line feeds a text starts with. */
  function Lead(s: seq<Unit>): nat {
    if s == [] || s[0] != LF then 0 else 1 + Lead(s[1..])
  }

  lemma {:induction false} CollapsePlain(s: seq<Unit>, run: nat)
    requires Plain(s) && run <= 2
    ensures Plain(Collapse(s, run)) && NoTriple(Collapse(s, run)) && Lead(Collapse(s, run)) <= 2 - run
  {
    if s != [] {
      if s[0] == LF && run >= 2 {
        CollapsePlain(s[1..], run);
      } else {
        var next := if s[0] == LF then run + 1 else 0;
        CollapsePlain(s[1..], next);
        var rest := Collapse(s[1..], next);
        NoTripleCons(s[0], rest);
      }
    }
  }

  lemma NoTripleCons(u: Unit, s: seq<Unit>)
    requires NoTriple(s) && (u == LF ==> Lead(s) <= 1)
    ensures NoTriple([u] + s)
    ensures ([u] + s)[1..] == s
  {
    var t := [u] + s;
    if |s| >= 2 {
      assert Lead(s) == (if s[0] != LF then 0 else 1 + Lead(s[1..]));
      assert Lead(s[1..]) == (if s[1] != LF then 0 else 1 + Lead(s[1..][1..]));
    }
    forall i | 0 <= i < |t| - 2 ensures !(t[i] == LF && t[i + 1] == LF && t[i + 2] == LF) {
      if i > 0 { assert t[i] == s[i - 1] && t[i + 1] == s[i] && t[i + 2] == s[i + 1]; }
    }
  }

  /** Trimming takes a slice whose ends are not white space. */
  lemma {:induction false} TrimStartSlice(s: seq<Unit>) returns (k: nat)
    ensures k <= |s| && TrimStart(s) == s[k..] && forall j | 0 <= j < k :: IsSpace(s[j])
    ensures TrimStart(s) != [] ==> !IsSpace(TrimStart(s)[0])
  {
    if s != [] && IsSpace(s[0]) {
      var j := TrimStartSlice(s[1..]);
      k := j + 1;
    } else {
      k := 0;
    }
  }

  lemma {:induction false} TrimEndSlice(s: seq<Unit>) returns (k: nat)
    ensures k <= |s| && TrimEnd(s) == s[..k] && forall j | k <= j < |s| :: IsSpace(s[j])
    ensures TrimEnd(s) != [] ==> !IsSpace(TrimEnd(s)[|TrimEnd(s)| - 1])
    ensures s != [] && !IsSpace(s[0]) ==> k > 0
  {
    if s != [] && IsSpace(s[|s| - 1]) {
      k := TrimEndSlice(s[..|s| - 1]);
    } else {
      k := |s|;
    }
  }

  lemma SlicePlain(s: seq<Unit>, i: nat, j: nat)
    requires Plain(s) && NoTriple(s) && i <= j <= |s|
    ensures Plain(s[i..j]) && NoTriple(s[i..j])
  {
  }

  lemma TrimClean(c: seq<Unit>)
    requires Plain(c) && NoTriple(c)
    ensures TrimEnd(TrimStart(c)) == [] || Clean(TrimEnd(TrimStart(c)))
  {
    var i := TrimStartSlice(c);
    var s := TrimStart(c);
    SlicePlain(c, i, |c|);
    assert c[i..|c|] == s;
    var k := TrimEndSlice(s);
    SlicePlain(s, 0, k);
    var t := TrimEnd(s);
    assert s[0..k] == t;
    if t != [] {
      assert t[0] == s[0];
    }
  }

  lemma NormalizeClean(s: seq<Unit>)
    ensures Normalize(s) == [] || Clean(Normalize(s))
  {
    NewlinesPlain(s);
    StripPlain(Newlines(s));
    CollapsePlain(Strip(Newlines(s)), 0);
    TrimClean(Collapse(Strip(Newlines(s)), 0));
  }

  lemma TruncatedClean(text: seq<Unit>)
    requires Clean(text) && |text| > LIMIT
    ensures var cut := TrimEnd(text[..LIMIT]);
            0 < |cut| <= LIMIT && cut <= text && !IsSpace(cut[|cut| - 1]) && Clean(cut + [ELLIPSIS])
  {
    var k := TrimEndSlice(text[..LIMIT]);
    var cut := TrimEnd(text[..LIMIT]);
    assert cut == text[0..k];
    SlicePlain(text, 0, k);
    var t := cut + [ELLIPSIS];
    assert t[0] == text[0];
    forall i | 0 <= i < |t| - 2 ensures !(t[i] == LF && t[i + 1] == LF && t[i + 2] == LF) {
      if i + 2 < |cut| { assert t[i] == cut[i] && t[i + 1] == cut[i + 1] && t[i + 2] == cut[i + 2]; }
    }
  }

  /** Accepted notes have no carriage return or removed control, no three line feeds, no outer space, and a bounded length. */
  lemma NotesAreClean(body: Option<seq<Unit>>)
    ensures ParseReleaseNotes(body).Some? ==>
              Clean(ParseReleaseNotes(body).value) && |ParseReleaseNotes(body).value| <= LIMIT + 1
  {
    if body.Some? {
      NormalizeClean(body.value);
      if |Normalize(body.value)| > LIMIT { TruncatedClean(Normalize(body.value)); }
    }
  }

  // Clean text passes unchanged.

  lemma {:induction false} NewlinesFixed(s: seq<Unit>)
    requires CR !in s
    ensures Newlines(s) == s
  {
    if s != [] { NewlinesFixed(s[1..]); }
  }

  lemma {:induction false} StripFixed(s: seq<Unit>)
    requires Plain(s)
    ensures Strip(s) == s
  {
    if s != [] { StripFixed(s[1..]); }
  }

  lemma {:induction false} CollapseFixed(s: seq<Unit>, run: nat)
    requires NoTriple(s) && run + Lead(s) <= 2
    ensures Collapse(s, run) == s
  {
    if s != [] {
      assert NoTriple(s[1..]) by {
        forall i | 0 <= i < |s[1..]| - 2 ensures !(s[1..][i] == LF && s[1..][i + 1] == LF && s[1..][i + 2] == LF) {
          assert s[1..][i] == s[i + 1] && s[1..][i + 1] == s[i + 2] && s[1..][i + 2] == s[i + 3];
        }
      }
      LeadBound(s[1..]);
      CollapseFixed(s[1..], if s[0] == LF then run + 1 else 0);
    }
  }

  lemma {:induction false} LeadBound(s: seq<Unit>)
    requires NoTriple(s)
    ensures Lead(s) <= 2
  {
    if |s| >= 3 {
      assert s[0] == LF && s[1] == LF ==> s[0 + 2] != LF;
      assert s[1..][1..] == s[2..];
      assert Lead(s[1..]) == (if s[1] != LF then 0 else 1 + Lead(s[2..]));
    } else if |s| == 2 {
      assert Lead(s[1..]) <= 1 by { assert s[1..][1..] == []; }
    } else if |s| == 1 {
      assert s[1..] == [];
    }
  }

  lemma CleanNormalizes(s: seq<Unit>)
    requires Clean(s)
    ensures Normalize(s) == s
  {
    NewlinesFixed(s);
    StripFixed(s);
    LeadBound(s);
    CollapseFixed(s, 0);
  }

  /** The texts of at most the limit that are shown as they are: exactly the clean ones. */
  lemma UnchangedIffClean(s: seq<Unit>)
    requires |s| <= LIMIT
    ensures ParseReleaseNotes(Some(s)) == Some(s) <==> Clean(s)
  {
    if Clean(s) { CleanNormalizes(s); }
    NotesAreClean(Some(s));
  }

  /** Sanitising twice is sanitising once, also when the first pass truncated. */
  lemma NotesAreIdempotent(body: Option<seq<Unit>>)
    requires ParseReleaseNotes(body).Some?
    ensures ParseReleaseNotes(ParseReleaseNotes(body)) == ParseReleaseNotes(body)
  {
    var notes, text := ParseReleaseNotes(body).value, Normalize(body.value);
    NotesAreClean(body);
    CleanNormalizes(notes);
    if |notes| > LIMIT {
      NormalizeClean(body.value);
      TruncatedClean(text);
      var cut := TrimEnd(text[..LIMIT]);
      assert notes[..LIMIT] == cut;
      assert TrimEnd(cut) == cut;
    }
  }

  // What survives.

  /** The characters a reader sees: neither white space nor a removed control. */
  function Visible(s: seq<Unit>): seq<Unit> {
    if s == [] then [] else if IsSpace(s[0]) || IsControl(s[0]) then Visible(s[1..]) else [s[0]] + Visible(s[1..])
  }

  lemma {:induction false} VisibleConcat(a: seq<Unit>, b: seq<Unit>)
    ensures Visible(a + b) == Visible(a) + Visible(b)
  {
    if a == [] {
      assert a + b == b;
    } else {
      var va, vb := Visible(a[1..]), Visible(b);
      VisibleConcat(a[1..], b);
      assert (a + b)[1..] == a[1..] + b && (a + b)[0] == a[0];
      if !(IsSpace(a[0]) || IsControl(a[0])) {
        assert Visible(a + b) == [a[0]] + (va + vb);
        assert [a[0]] + (va + vb) == ([a[0]] + va) + vb;
      }
    }
  }

  lemma {:induction false} NewlinesVisible(s: seq<Unit>)
    ensures Visible(Newlines(s)) == Visible(s)
  {
    if s != [] {
      var rest := if s[0] == CR && |s| > 1 && s[1] == LF then s[2..] else s[1..];
      NewlinesVisible(rest);
      assert Newlines(s)[1..] == Newlines(rest);
      if |rest| + 2 == |s| { assert s[1..][1..] == rest; }
    }
  }

  lemma {:induction false} StripVisible(s: seq<Unit>)
    ensures Visible(Strip(s)) == Visible(s)
  {
    if s != [] {
      StripVisible(s[1..]);
      if !IsControl(s[0]) { assert Strip(s)[1..] == Strip(s[1..]); }
    }
  }

  lemma {:induction false} CollapseVisible(s: seq<Unit>, run: nat)
    ensures Visible(Collapse(s, run)) == Visible(s)
  {
    if s != [] {
      var next := if s[0] != LF then 0 else if run >= 2 then run else run + 1;
      CollapseVisible(s[1..], next);
      if !(s[0] == LF && run >= 2) { assert Collapse(s, run)[1..] == Collapse(s[1..], next); }
    }
  }

  lemma {:induction false} TrimStartVisible(s: seq<Unit>)
    ensures Visible(TrimStart(s)) == Visible(s)
  {
    if s != [] && IsSpace(s[0]) { TrimStartVisible(s[1..]); }
  }

  lemma {:induction false} TrimEndVisible(s: seq<Unit>)
    ensures Visible(TrimEnd(s)) == Visible(s)
  {
    if s != [] && IsSpace(s[|s| - 1]) {
      TrimEndVisible(s[..|s| - 1]);
      VisibleConcat(s[..|s| - 1], [s[|s| - 1]]);
      assert s == s[..|s| - 1] + [s[|s| - 1]];
    }
  }

  lemma NormalizeVisible(s: seq<Unit>)
    ensures Visible(Normalize(s)) == Visible(s)
  {
    NewlinesVisible(s);
    StripVisible(Newlines(s));
    CollapseVisible(Strip(Newlines(s)), 0);
    TrimStartVisible(Collapse(Strip(Newlines(s)), 0));
    TrimEndVisible(TrimStart(Collapse(Strip(Newlines(s)), 0)));
  }

  /** No visible character is lost, added or reordered, up to the truncation point; only an invisible body has no notes. */
  lemma NotesKeepVisible(s: seq<Unit>)
    ensures ParseReleaseNotes(Some(s)).None? <==> Visible(s) == []
    ensures ParseReleaseNotes(Some(s)).Some? ==>
              var notes := ParseReleaseNotes(Some(s)).value;
              if |Normalize(s)| <= LIMIT then Visible(notes) == Visible(s)
              else notes[|notes| - 1] == ELLIPSIS && Visible(notes[..|notes| - 1]) <= Visible(s)
  {
    NormalizeVisible(s);
    NormalizeClean(s);
    var text := Normalize(s);
    if |text| > LIMIT {
      var cut := TrimEnd(text[..LIMIT]);
      TrimEndVisible(text[..LIMIT]);
      VisibleConcat(text[..LIMIT], text[LIMIT..]);
      assert text == text[..LIMIT] + text[LIMIT..];
      assert (cut + [ELLIPSIS])[..|cut|] == cut;
    }
  }

  // Line ending conventions do not matter.

  /** The same text with every line feed written as `ending`. */
  function WithEndings(s: seq<Unit>, ending: seq<Unit>): seq<Unit> {
    if s == [] then [] else (if s[0] == LF then ending else [s[0]]) + WithEndings(s[1..], ending)
  }

  lemma {:induction false} EndingsNormalize(s: seq<Unit>, ending: seq<Unit>)
    requires CR !in s && (ending == [CR, LF] || ending == [CR])
    ensures Newlines(WithEndings(s, ending)) == s
    ensures ending == [CR] && s != [] ==> WithEndings(s, ending)[0] != LF
  {
    if s != [] {
      EndingsNormalize(s[1..], ending);
      var rest := WithEndings(s[1..], ending);
      var t := WithEndings(s, ending);
      if s[0] == LF {
        if ending == [CR, LF] {
          assert t[2..] == rest && t[1] == LF;
        } else {
          assert t[1..] == rest;
        }
      } else {
        assert t[1..] == rest;
      }
      assert s == [s[0]] + s[1..];
    }
  }

  /** Bodies with CR LF or bare CR line endings give the notes of the same body with line feeds. */
  lemma EndingsDoNotMatter(s: seq<Unit>, ending: seq<Unit>)
    requires CR !in s && (ending == [CR, LF] || ending == [CR])
    ensures ParseReleaseNotes(Some(WithEndings(s, ending))) == ParseReleaseNotes(Some(s))
  {
    EndingsNormalize(s, ending);
    NewlinesFixed(s);
  }

  // What each pass does, piece by piece, and what is shown in the end.

  lemma Cons(u: Unit, a: seq<Unit>, b: seq<Unit>)
    ensures [u] + (a + b) == ([u] + a) + b
  {
  }

  lemma TailOfConcat(a: seq<Unit>, b: seq<Unit>, n: nat)
    requires n <= |a|
    ensures (a + b)[n..] == a[n..] + b && (n < |a| ==> (a + b)[n] == a[n])
  {
  }

  /** Line endings are recognised wherever two pieces do not split one. */
  lemma {:induction false} NewlinesConcat(a: seq<Unit>, b: seq<Unit>)
    requires !(a != [] && a[|a| - 1] == CR && b != [] && b[0] == LF)
    ensures Newlines(a + b) == Newlines(a) + Newlines(b)
  {
    if a == [] {
      assert a + b == b;
    } else {
      var n := if a[0] == CR && |a| > 1 && a[1] == LF then 2 else 1;
      TailOfConcat(a, b, 0);
      TailOfConcat(a, b, 1);
      TailOfConcat(a, b, n);
      NewlinesConcat(a[n..], b);
      Cons(if a[0] == CR then LF else a[0], Newlines(a[n..]), Newlines(b));
    }
  }

  /** The pieces: each of the three line endings is a line feed, and any other unit is itself. */
  lemma NewlinesPieces(u: Unit)
    ensures Newlines([CR, LF]) == [LF] && Newlines([u]) == if u == CR then [LF] else [u]
  {
    assert [CR, LF][2..] == [] && [u][1..] == [];
  }

  /** The controls are C0, delete and C1 without tab, line feed and carriage return, which carry the layout. */
  lemma ControlsAre(u: Unit)
    ensures IsControl(u) <==> (u < 0x20 || 0x7F <= u < 0xA0) && u != 0x09 && u != LF && u != CR
  {
  }

  lemma {:induction false} StripConcat(a: seq<Unit>, b: seq<Unit>)
    ensures Strip(a + b) == Strip(a) + Strip(b)
  {
    if a == [] {
      assert a + b == b;
    } else {
      TailOfConcat(a, b, 0);
      TailOfConcat(a, b, 1);
      StripConcat(a[1..], b);
      Cons(a[0], Strip(a[1..]), Strip(b));
    }
  }

  /** Stripping removes exactly the controls. */
  lemma StripPieces(u: Unit)
    ensures Strip([u]) == if IsControl(u) then [] else [u]
  {
    assert [u][1..] == [];
  }

  function Feeds(n: nat): (s: seq<Unit>)
    ensures |s| == n && forall i | 0 <= i < n :: s[i] == LF
  {
    seq(n, i => LF)
  }

  lemma {:induction false} CollapseFeeds(n: nat, run: nat)
    requires run <= 2
    ensures Collapse(Feeds(n), run) == Feeds(if n + run <= 2 then n else 2 - run)
  {
    if n > 0 {
      assert Feeds(n)[1..] == Feeds(n - 1);
      if run >= 2 {
        CollapseFeeds(n - 1, run);
      } else {
        CollapseFeeds(n - 1, run + 1);
        var m := if n + run <= 2 then n else 2 - run;
        assert [LF] + Feeds(m - 1) == Feeds(m);
      }
    }
  }

  lemma {:induction false} CollapseAfter(a: seq<Unit>, b: seq<Unit>, run: nat)
    requires b == [] || b[0] != LF || (a != [] && a[|a| - 1] != LF)
    ensures Collapse(a + b, run) == Collapse(a, run) + Collapse(b, 0)
  {
    if a == [] {
      assert a + b == b;
    } else {
      TailOfConcat(a, b, 0);
      TailOfConcat(a, b, 1);
      if a[0] == LF {
        CollapseAfter(a[1..], b, if run >= 2 then run else run + 1);
      } else if |a| > 1 || b == [] || b[0] != LF {
        CollapseAfter(a[1..], b, 0);
      } else {
        assert a[1..] + b == b && a[1..] == [];
      }
    }
  }

  /** Runs of line feeds are cut to two each, and nothing else is touched: every text is made of such pieces. */
  lemma CollapseConcat(a: seq<Unit>, b: seq<Unit>, n: nat, u: Unit)
    requires !(a != [] && a[|a| - 1] == LF && b != [] && b[0] == LF)
    ensures Collapse(a + b, 0) == Collapse(a, 0) + Collapse(b, 0)
    ensures Collapse(Feeds(n), 0) == Feeds(if n <= 2 then n else 2)
    ensures u != LF ==> Collapse([u], 0) == [u]
  {
    CollapseFeeds(n, 0);
    if a == [] { assert a + b == b; } else { CollapseAfter(a, b, 0); }
    assert [u][1..] == [];
  }

  ghost predicate AllSpace(c: seq<Unit>, i: int, j: int) {
    forall k | 0 <= i <= k < j <= |c| :: IsSpace(c[k])
  }

  /** The core of a text: everything outside `i` to `j` is white space, and neither end of it is. */
  ghost predicate Core(c: seq<Unit>, i: nat, j: nat) {
    && i <= j <= |c| && AllSpace(c, 0, i) && AllSpace(c, j, |c|)
    && (i < j ==> !IsSpace(c[i]) && !IsSpace(c[j - 1]))
  }

  /** What is shown of a text: nothing of a blank one, the core of a short one, and the longest core that fits of a long one, marked as cut. */
  ghost predicate Shows(c: seq<Unit>, notes: Option<seq<Unit>>) {
    exists i: nat, j: nat :: Core(c, i, j) &&
      if i == j then notes.None?
      else if j - i <= LIMIT then notes == Some(c[i..j])
      else exists m: nat :: Cut(c, i, m, notes)
  }

  ghost predicate Cut(c: seq<Unit>, i: nat, m: nat, notes: Option<seq<Unit>>) {
    i < m <= i + LIMIT <= |c| && AllSpace(c, m, i + LIMIT) && !IsSpace(c[m - 1]) && notes == Some(c[i..m] + [ELLIPSIS])
  }

  lemma TrimCore(c: seq<Unit>) returns (i: nat, j: nat)
    ensures Core(c, i, j) && TrimEnd(TrimStart(c)) == c[i..j]
  {
    i := TrimStartSlice(c);
    var s := TrimStart(c);
    var k := TrimEndSlice(s);
    j := i + k;
    assert forall x | j <= x < |c| :: c[x] == s[x - i];
    assert s[..k] == c[i..j];
  }

  /** The notes show the collapsed text as just said. */
  lemma NotesShow(s: seq<Unit>)
    ensures Shows(Collapse(Strip(Newlines(s)), 0), ParseReleaseNotes(Some(s)))
  {
    var c := Collapse(Strip(Newlines(s)), 0);
    var i, j := TrimCore(c);
    if j - i > LIMIT {
      var head := c[i..j][..LIMIT];
      assert head == c[i..i + LIMIT];
      var k := TrimEndSlice(head);
      assert forall x | i + k <= x < i + LIMIT :: c[x] == head[x - i];
      assert head[..k] == c[i..i + k];
      assert k > 0;
      assert Cut(c, i, i + k, ParseReleaseNotes(Some(s)));
    }
  }
}
