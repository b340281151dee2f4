/** The last rewrite of `sanitizeHTML` in app.js: every match of the case-insensitive,
    global pattern `\bon\w+\s*=` (an inline event-handler attribute such as
    `onclick =`) is replaced by "data-removed=". `\w` is the ASCII word class and `\s`
    JavaScript's white-space class. */
module Sanitize {
  import opened Wrappers

  const Replacement: string := "data-removed="

  /** `\w` without the `u` flag. */
  predicate Word(c: char) {
    ('a' <= c <= 'z') || ('A' <= c <= 'Z') || ('0' <= c <= '9') || c == '_'
  }

  /** `\s`: ASCII white space, no-break space and the Unicode space separators,
      line and paragraph separators and the byte-order mark. */
  predicate Space(c: char) {
    || c == '\t' || c == '\n' || c == '\U{000B}' || c == '\U{000C}' || c == '\r' || c == ' '
    || c == '\U{00A0}' || c == '\U{1680}' || ('\U{2000}' <= c <= '\U{200A}')
    || c == '\U{2028}' || c == '\U{2029}' || c == '\U{202F}' || c == '\U{205F}'
    || c == '\U{3000}' || c == '\U{FEFF}'
  }

  /** A handler span of `t` at `p`: at a word boundary, "on" in any case, the word
      characters `[p + 2, w)` (at least one), the spaces `[w, e)` and "=" at `e`.
      `prevWord` says whether the character before `t` is a word character. */
  predicate Span(t: string, p: int, w: int, e: int, prevWord: bool) {
    && 0 <= p && p + 2 < w <= e < |t|
    && (if p == 0 then !prevWord else !Word(t[p - 1]))
    && (t[p] == 'o' || t[p] == 'O') && (t[p + 1] == 'n' || t[p + 1] == 'N')
    && (forall k :: p + 2 <= k < w ==> Word(t[k]))
    && (forall k :: w <= k < e ==> Space(t[k]))
    && t[e] == '='
  }

  /** The end of the run of word characters starting at `from`. */
  function WordEnd(t: string, from: nat): (r: nat)
    requires from <= |t|
    ensures from <= r <= |t|
    ensures r < |t| ==> !Word(t[r])
    decreases |t| - from
  {
    if from == |t| || !Word(t[from]) then from else WordEnd(t, from + 1)
  }

  /** The end of the run of white space starting at `from`. */
  function SpaceEnd(t: string, from: nat): (r: nat)
    requires from <= |t|
    ensures from <= r <= |t|
    ensures r < |t| ==> !Space(t[r])
    decreases |t| - from
  {
    if from == |t| || !Space(t[from]) then from else SpaceEnd(t, from + 1)
  }

  /** Everything `WordEnd` passes over is a word character. */
  lemma {:induction false} WordRun(t: string, from: nat)
    requires from <= |t|
    ensures forall k :: from <= k < WordEnd(t, from) ==> Word(t[k])
    decreases |t| - from
  {
    if from < |t| && Word(t[from]) {
      WordRun(t, from + 1);
    }
  }

  /** Everything `SpaceEnd` passes over is white space. */
  lemma {:induction false} SpaceRun(t: string, from: nat)
    requires from <= |t|
    ensures forall k :: from <= k < SpaceEnd(t, from) ==> Space(t[k])
    decreases |t| - from
  {
    if from < |t| && Space(t[from]) {
      SpaceRun(t, from + 1);
    }
  }

  /** Where the pattern, tried at `i` of `s`, ends its match, if it matches there. The
      word run and the white space are taken greedily; as the three classes are
      disjoint, backtracking finds nothing more. */
  function MatchEnd(s: string, i: nat): (r: Option<nat>)
    requires i <= |s|
    ensures r.Some? ==> i + 2 < r.value <= |s| && s[r.value - 1] == '='
    ensures r.Some? && i > 0 ==> !Word(s[i - 1])
  {
    if i + 1 < |s| && (i == 0 || !Word(s[i - 1])) && (s[i] == 'o' || s[i] == 'O') && (s[i + 1] == 'n' || s[i + 1] == 'N') then
      var w := WordEnd(s, i + 2);
      if w == i + 2 then None
      else
        var e := SpaceEnd(s, w);
        if e < |s| && s[e] == '=' then Some(e + 1)
        else None
    else None
  }

  /** A match found by `MatchEnd` is a span, with the greedy word run. */
  lemma MatchEndSound(s: string, i: nat)
    requires i <= |s| && MatchEnd(s, i).Some?
    ensures Span(s, i, WordEnd(s, i + 2), MatchEnd(s, i).value - 1, false)
  {
    WordRun(s, i + 2);
    SpaceRun(s, WordEnd(s, i + 2));
  }

  /** The greedy match misses no span: wherever a span starts, `MatchEnd` reports a match. */
  lemma MatchEndComplete(s: string, i: nat, w: int, e: int)
    requires i <= |s| && Span(s, i, w, e, false)
    ensures MatchEnd(s, i) == Some(e + 1)
  {
    WordRun(s, i + 2);
    SpaceRun(s, w);
  }

  /** `s.replace(/\bon\w+\s*=/gi, 'data-removed=')` from index `i` on: where the pattern
      matches, emit the replacement and go on after the match; elsewhere copy one
      character and try the next index. */
  function RewriteFrom(s: string, i: nat): string
    requires i <= |s|
    decreases |s| - i
  {
    if i == |s| then []
    else match MatchEnd(s, i)
      case Some(j) => Replacement + RewriteFrom(s, j)
      case None => [s[i]] + RewriteFrom(s, i + 1)
  }

  /** The rewrite applied to a whole string. */
  function RemoveHandlers(s: string): string {
    RewriteFrom(s, 0)
  }

  /** `t` holds no handler span anywhere, given the character before it. */
  ghost predicate HandlerFree(t: string, prevWord: bool) {
    forall p, w, e :: !Span(t, p, w, e, prevWord)
  }

  /** Up to the first index where the pattern matches, the rewrite copies the input. */
  lemma {:induction false} CopiedUntilMatch(s: string, i: nat, n: nat)
    requires i + n <= |s|
    requires forall m :: i <= m < i + n ==> MatchEnd(s, m).None?
    ensures RewriteFrom(s, i) == s[i..i + n] + RewriteFrom(s, i + n)
    decreases n
  {
    if n > 0 {
      assert MatchEnd(s, i).None?;
      assert RewriteFrom(s, i) == [s[i]] + RewriteFrom(s, i + 1);
      CopiedUntilMatch(s, i + 1, n - 1);
    }
  }

  /** Past the last match, the rewrite is a copy of the rest of the input. */
  lemma CopiedToEnd(s: string, i: nat, m: nat)
    requires i <= m == |s|
    requires forall k :: i <= k < m ==> MatchEnd(s, k).None?
    ensures RewriteFrom(s, i) == s[i..]
  {
    CopiedUntilMatch(s, i, m - i);
  }

  /** The first index in `[lo, hi)` where the pattern matches, or `hi`. */
  function NextMatch(s: string, lo: int, hi: int): (m: int)
    requires 0 <= lo <= hi <= |s|
    ensures lo <= m <= hi
    ensures forall k :: lo <= k < m ==> MatchEnd(s, k).None?
    ensures m < hi ==> MatchEnd(s, m).Some?
    decreases hi - lo
  {
    if lo == hi || MatchEnd(s, lo).Some? then lo else NextMatch(s, lo + 1, hi)
  }

  /** A span after a non-empty prefix is a span of the rest. */
  lemma SpanShift(a: string, b: string, q: int, w: int, e: int, prevWord: bool)
    requires |a| > 0 && q >= 0 && Span(a + b, |a| + q, |a| + w, |a| + e, prevWord)
    ensures Span(b, q, w, e, Word(a[|a| - 1]))
  {
    var t := a + b;
    forall k | q + 2 <= k < w ensures Word(b[k]) {
      assert t[|a| + k] == b[k];
    }
    forall k | w <= k < e ensures Space(b[k]) {
      assert t[|a| + k] == b[k];
    }
    assert t[|a| + e] == b[e];
    if q > 0 {
      assert t[|a| + q - 1] == b[q - 1];
    }
  }

  /** A span at the start of a rewritten suffix is a span of the input at `i` when the
      rewrite copied the input that far. */
  lemma SpanTransfer(s: string, i: nat, o: string, w: int, e: int)
    requires i < |s| && Span(o, 0, w, e, i > 0 && Word(s[i - 1]))
    requires i + e < |s| && o[..e + 1] == s[i..i + e + 1]
    ensures Span(s, i, i + w, i + e, false)
  {
    forall k | 0 <= k <= e ensures o[k] == s[i + k] {
      assert o[..e + 1][k] == s[i..i + e + 1][k];
    }
  }

  /** The replacement holds no "o" at a word boundary. */
  lemma ReplacementHasNoSpanStart(t: string, p: int, w: int, e: int, prevWord: bool)
    requires Replacement <= t && 0 <= p < |Replacement|
    ensures !Span(t, p, w, e, prevWord)
  {
    assert t[p] == Replacement[p];
    if p > 0 {
      assert t[p - 1] == Replacement[p - 1];
    }
  }

  /** The rewrite of `s` from `i` on leaves no handler span behind. */
  lemma {:induction false} NoHandlerFrom(s: string, i: nat)
    requires i <= |s|
    ensures HandlerFree(RewriteFrom(s, i), i > 0 && Word(s[i - 1]))
    decreases |s| - i
  {
    var f := i > 0 && Word(s[i - 1]);
    var o := RewriteFrom(s, i);
    if i < |s| {
      match MatchEnd(s, i)
      case Some(j) =>
        NoHandlerFrom(s, j);
        assert o == Replacement + RewriteFrom(s, j);
        forall p, w, e | Span(o, p, w, e, f) ensures false {
          if p < |Replacement| {
            ReplacementHasNoSpanStart(o, p, w, e, f);
          } else {
            var n := |Replacement|;
            SpanShift(Replacement, RewriteFrom(s, j), p - n, w - n, e - n, f);
          }
        }
      case None =>
        NoHandlerFrom(s, i + 1);
        assert o == [s[i]] + RewriteFrom(s, i + 1);
        forall p, w, e | Span(o, p, w, e, f) ensures false {
          if p > 0 {
            SpanShift([s[i]], RewriteFrom(s, i + 1), p - 1, w - 1, e - 1, f);
          } else {
            NoSpanAtCopiedStart(s, i, w, e);
          }
        }
    }
  }

  /** Where the pattern does not match at `i`, the rewrite does not start a span at `i`
      either: a replacement made further on begins with a word character that would
      follow a non-word one. */
  lemma NoSpanAtCopiedStart(s: string, i: nat, w: int, e: int)
    requires i < |s| && MatchEnd(s, i).None?
    ensures !Span(RewriteFrom(s, i), 0, w, e, i > 0 && Word(s[i - 1]))
  {
    if 0 <= e {
      var hi := if i + e + 1 <= |s| then i + e + 1 else |s|;
      var m := NextMatch(s, i, hi);
      if m == i + e + 1 {
        CopiedSpanWouldMatch(s, i, w, e);
      } else if m < hi {
        ReplacementInsideBreaksSpan(s, i, m, w, e);
      } else {
        CopiedToEnd(s, i, m);
      }
    }
  }

  /** A span lying in a stretch the rewrite copied would be a match of the input. */
  lemma CopiedSpanWouldMatch(s: string, i: nat, w: int, e: nat)
    requires i + e < |s| && forall k :: i <= k <= i + e ==> MatchEnd(s, k).None?
    ensures !Span(RewriteFrom(s, i), 0, w, e, i > 0 && Word(s[i - 1]))
  {
    var o := RewriteFrom(s, i);
    CopiedUntilMatch(s, i, e + 1);
    if Span(o, 0, w, e, i > 0 && Word(s[i - 1])) {
      assert o[..e + 1] == s[i..i + e + 1];
      SpanTransfer(s, i, o, w, e);
      MatchEndComplete(s, i, i + w, i + e);
    }
  }

  /** A replacement emitted inside the stretch a span would cover breaks it: it starts
      with the word character "d" right after a copied non-word character. */
  lemma ReplacementInsideBreaksSpan(s: string, i: nat, m: nat, w: int, e: int)
    requires i < m < |s| && m - i <= e
    requires MatchEnd(s, m).Some? && forall k :: i <= k < m ==> MatchEnd(s, k).None?
    ensures !Span(RewriteFrom(s, i), 0, w, e, i > 0 && Word(s[i - 1]))
  {
    var o := RewriteFrom(s, i);
    var rest := RewriteFrom(s, MatchEnd(s, m).value);
    CopiedUntilMatch(s, i, m - i);
    assert RewriteFrom(s, m) == Replacement + rest;
    var d := m - i;
    assert o == s[i..m] + (Replacement + rest);
    assert o[d] == Replacement[0] == 'd';
    assert o[d - 1] == s[m - 1];
    assert !Word(o[d - 1]);
  }

  /** No event-handler attribute survives the rewrite. */
  lemma NoHandlerLeft(s: string)
    ensures HandlerFree(RemoveHandlers(s), false)
  {
    NoHandlerFrom(s, 0);
  }

  /** Text without any handler attribute passes unchanged. */
  lemma CleanTextUnchanged(s: string)
    requires HandlerFree(s, false)
    ensures RemoveHandlers(s) == s
  {
    forall m | 0 <= m < |s| ensures MatchEnd(s, m).None? {
      if MatchEnd(s, m).Some? {
        MatchEndSound(s, m);
      }
    }
    CopiedUntilMatch(s, 0, |s|);
  }

  /** Rewriting twice is rewriting once. */
  lemma RemoveHandlersIdempotent(s: string)
    ensures RemoveHandlers(RemoveHandlers(s)) == RemoveHandlers(s)
  {
    NoHandlerLeft(s);
    CleanTextUnchanged(RemoveHandlers(s));
  }

  /** "onx=" is an event-handler attribute, but "on=" is not: the pattern wants at least
      one word character after "on". */
  lemma HandlerNeedsAName()
    ensures RemoveHandlers("onx=") == Replacement
    ensures RemoveHandlers("on=") == "on="
  {
    assert MatchEnd("onx=", 0) == Some(4);
    assert RewriteFrom("onx=", 4) == [];
    assert MatchEnd("on=", 0) == None;
    assert MatchEnd("on=", 1) == None;
    assert MatchEnd("on=", 2) == None;
  }
}
