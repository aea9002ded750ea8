/** Visible text of suffix-aware completions: the tail that repeats the suffix is held back. */
module CompletionInfill {
  import opened KeyOrder

  // ---- The longest overlap ----------------------------------------------------------------------

  /** The last n characters of the text are the first n of the suffix. */
  predicate Overlaps(text: string, suffix: string, n: nat) {
    n <= |text| && n <= |suffix| && text[|text| - n..] == suffix[..n]
  }

  function LongestUpTo(text: string, suffix: string, bound: nat): (n: nat)
    ensures n <= bound && Overlaps(text, suffix, n)
    ensures forall k | n < k <= bound :: !Overlaps(text, suffix, k)
  {
    if bound == 0 || Overlaps(text, suffix, bound) then bound else LongestUpTo(text, suffix, bound - 1)
  }

  function LongestOverlap(text: string, suffix: string): (n: nat)
    ensures Overlaps(text, suffix, n) && forall k | n < k :: !Overlaps(text, suffix, k)
  {
    LongestUpTo(text, suffix, if |text| < |suffix| then |text| else |suffix|)
  }

  function Trimmed(text: string, suffix: string): string { text[..|text| - LongestOverlap(text, suffix)] }

  /** The search of _trim_suffix_overlap, from the longest possible overlap down. */
  method TrimSuffixOverlap(text: string, suffix: string) returns (r: string)
    ensures r == Trimmed(text, suffix)
  {
    if text == [] || suffix == [] { return text; }
    var overlap := if |text| < |suffix| then |text| else |suffix|;
    while overlap > 0
      invariant 0 <= overlap <= |text| && overlap <= |suffix|
      invariant forall k | overlap < k :: !Overlaps(text, suffix, k)
    {
      if text[|text| - overlap..] == suffix[..overlap] {
        assert Overlaps(text, suffix, overlap);
        return text[..|text| - overlap];
      }
      overlap := overlap - 1;
    }
    return text;
  }

  lemma OverlapRisesByOne(text: string, c: char, suffix: string)
    ensures LongestOverlap(text + [c], suffix) <= LongestOverlap(text, suffix) + 1
  {
    var n := LongestOverlap(text + [c], suffix);
    if n > 0 {
      assert (text + [c])[|text| + 1 - n..] == text[|text| + 1 - n..] + [c];
      assert text[|text| - (n - 1)..] == suffix[..n - 1];
      assert Overlaps(text, suffix, n - 1);
    }
  }

  /** The trimmed text only grows when the text grows. */
  lemma {:induction false} TrimmedGrows(text: string, longer: string, suffix: string)
    requires text <= longer
    ensures Trimmed(text, suffix) <= Trimmed(longer, suffix)
    ensures LongestOverlap(longer, suffix) <= LongestOverlap(text, suffix) + |longer| - |text|
    decreases |longer|
  {
    if text == longer {
    } else {
      var shorter := longer[..|longer| - 1];
      assert longer == shorter + [longer[|longer| - 1]];
      TrimmedGrows(text, shorter, suffix);
      OverlapRisesByOne(shorter, longer[|longer| - 1], suffix);
    }
  }

  /** A text that ends in the whole suffix loses exactly that suffix. */
  lemma WholeSuffixIsTrimmed(body: string, suffix: string)
    ensures Trimmed(body + suffix, suffix) == body
  {
    assert (body + suffix)[|body|..] == suffix[..|suffix|];
    assert Overlaps(body + suffix, suffix, |suffix|);
  }

  // ---- Finding tags -----------------------------------------------------------------------------

  predicate OccursAt(s: string, t: string, i: nat) { i + |t| <= |s| && s[i..i + |t|] == t }

  function FindFrom(s: string, t: string, i: nat): (r: Option<nat>)
    ensures r.Some? ==> i <= r.value && OccursAt(s, t, r.value) && forall k | i <= k < r.value :: !OccursAt(s, t, k)
    ensures r.None? ==> forall k | i <= k :: !OccursAt(s, t, k)
    decreases |s| - i
  {
    if i + |t| > |s| then None else if s[i..i + |t|] == t then Some(i) else FindFrom(s, t, i + 1)
  }

  function Find(s: string, t: string): (r: Option<nat>)
    ensures r.Some? ==> OccursAt(s, t, r.value) && forall k | 0 <= k < r.value :: !OccursAt(s, t, k)
  {
    FindFrom(s, t, 0)
  }

  lemma FindIsStable(s: string, longer: string, t: string)
    requires s <= longer
    ensures Find(s, t).Some? ==> Find(longer, t) == Find(s, t)
    ensures Find(longer, t).Some? && Find(longer, t).value + |t| <= |s| ==> Find(s, t).Some?
  {
    if Find(longer, t).Some? && Find(longer, t).value + |t| <= |s| {
      assert OccursAt(s, t, Find(longer, t).value);
    }
    if Find(s, t).Some? {
      var i := Find(s, t).value;
      assert OccursAt(longer, t, i);
      forall k | 0 <= k < i ensures !OccursAt(longer, t, k) {
        assert !OccursAt(s, t, k);
        assert k + |t| <= |s| ==> longer[k..k + |t|] == s[k..k + |t|];
      }
    }
  }

  // ---- Visible text -----------------------------------------------------------------------------

  // How the engine fills in: natively, or by a chat prompt that wraps the answer in tags
  datatype Infill = Native | ChatFallback(openTag: string, closeTag: string)

  /** What follows the open tag; None while it has not appeared. An empty tag is at once there. */
  function Opened(infill: Infill, raw: string): Option<string> {
    match infill
    case Native => Some(raw)
    case ChatFallback(openTag, _) =>
      match Find(raw, openTag)
      case None => None
      case Some(i) => Some(raw[i + |openTag|..])
  }

  function CloseAt(infill: Infill, body: string): Option<nat> {
    if infill.Native? || infill.closeTag == [] then None else Find(body, infill.closeTag)
  }

  function UpToClose(infill: Infill, body: string): string {
    match CloseAt(infill, body)
    case None => body
    case Some(end) => body[..end]
  }

  function Visible(infill: Infill, raw: string, suffix: string, finished: bool): string {
    match Opened(infill, raw)
    case Some(body) => Trimmed(UpToClose(infill, body), suffix)
    case None => if finished then Trimmed(UpToClose(infill, raw), suffix) else []
  }

  method ExtractVisibleText(infill: Infill, raw: string, suffix: string, finished: bool) returns (r: string)
    ensures r == Visible(infill, raw, suffix, finished)
  {
    hide Find, Trimmed;
    var visible := raw;
    if infill.ChatFallback? && infill.openTag == [] { EmptyTagOpens(infill, raw); EmptyTagFound(raw); }
    if infill.ChatFallback? {
      var start := if infill.openTag != [] then Find(visible, infill.openTag) else Some(0);
      if start.None? {
        if !finished { return []; }
      } else {
        visible := visible[start.value + |infill.openTag|..];
      }
      var end := if infill.closeTag != [] then Find(visible, infill.closeTag) else None;
      if end.Some? {
        visible := visible[..end.value];
      }
    }
    r := TrimSuffixOverlap(visible, suffix);
  }

  /** The text holds the tag first at this position. */
  predicate FirstAt(s: string, t: string, i: nat) { OccursAt(s, t, i) && forall k | 0 <= k < i :: !OccursAt(s, t, k) }

  ghost predicate Holds(s: string, t: string) { exists k: nat :: OccursAt(s, t, k) }

  lemma FindIs(s: string, t: string, i: nat)
    ensures Find(s, t) == Some(i) <==> FirstAt(s, t, i)
    ensures Find(s, t) == None <==> !Holds(s, t)
  {
    if Find(s, t).Some? { assert OccursAt(s, t, Find(s, t).value); }
  }

  /** Chat fallback: of a text with both tags exactly what stands between them is shown, without the tags
      and trimmed; while the close tag has not appeared in full, all that follows the open tag. */
  lemma BetweenTagsIsShown(openTag: string, closeTag: string, before: string, inside: string, after: string,
                           suffix: string, finished: bool)
    requires closeTag != []
    ensures var infill := ChatFallback(openTag, closeTag);
            var raw := before + openTag + inside;
            && (FirstAt(raw, openTag, |before|) && !Holds(inside, closeTag) ==>
                  Visible(infill, raw, suffix, finished) == Trimmed(inside, suffix))
            && (FirstAt(raw + closeTag + after, openTag, |before|) &&
                FirstAt(inside + closeTag + after, closeTag, |inside|)
                ==> Visible(infill, raw + closeTag + after, suffix, finished) == Trimmed(inside, suffix))
  {
    hide Find, FirstAt, Holds, Trimmed;
    var raw := before + openTag + inside;
    FindIs(raw, openTag, |before|);
    FindIs(raw + closeTag + after, openTag, |before|);
    FindIs(inside, closeTag, 0);
    FindIs(inside + closeTag + after, closeTag, |inside|);
    assert raw[|before| + |openTag|..] == inside;
    assert (raw + closeTag + after)[|before| + |openTag|..] == inside + closeTag + after;
    assert (inside + closeTag + after)[..|inside|] == inside;
  }

  /** Without the open tag nothing is shown until the text is finished, and then everything up to the
      close tag. */
  lemma UnopenedIsShownAtTheEnd(openTag: string, closeTag: string, inside: string, after: string, suffix: string)
    requires closeTag != []
    ensures var infill, raw := ChatFallback(openTag, closeTag), inside + closeTag + after;
            && (!Holds(raw, openTag) ==> Visible(infill, raw, suffix, false) == [])
            && (!Holds(raw, openTag) && FirstAt(raw, closeTag, |inside|) ==>
                  Visible(infill, raw, suffix, true) == Trimmed(inside, suffix))
            && (!Holds(inside, openTag) && !Holds(inside, closeTag) ==>
                  Visible(infill, inside, suffix, true) == Trimmed(inside, suffix))
  {
    hide Find, FirstAt, Holds, Trimmed;
    var raw := inside + closeTag + after;
    FindIs(raw, openTag, 0);
    FindIs(inside, openTag, 0);
    FindIs(raw, closeTag, |inside|);
    FindIs(inside, closeTag, 0);
    assert raw[..|inside|] == inside;
  }

  lemma OpenedGrows(infill: Infill, raw: string, longer: string)
    requires raw <= longer && Opened(infill, raw).Some?
    ensures Opened(infill, longer).Some? && Opened(infill, raw).value <= Opened(infill, longer).value
  {
    if infill.ChatFallback? { FindIsStable(raw, longer, infill.openTag); }
  }

  /** The close tag has appeared in full. */
  predicate ClosedBy(infill: Infill, raw: string) {
    Opened(infill, raw).Some? && CloseAt(infill, Opened(infill, raw).value).Some?
  }

  /** Native infill: visible text only grows, and it is the raw text without its longest tail that
      begins the suffix. */
  lemma NativeVisibleGrows(raw: string, longer: string, suffix: string, finished: bool, later: bool)
    requires raw <= longer
    ensures Visible(Native, raw, suffix, finished) <= Visible(Native, longer, suffix, later)
    ensures Visible(Native, raw, suffix, finished) == Trimmed(raw, suffix)
  {
    TrimmedGrows(raw, longer, suffix);
  }

  /** Once the close tag has appeared in full, visible text is constant. */
  lemma ConstantAfterClose(infill: Infill, raw: string, longer: string, suffix: string, finished: bool, later: bool)
    requires raw <= longer && ClosedBy(infill, raw)
    ensures ClosedBy(infill, longer) && Visible(infill, longer, suffix, later) == Visible(infill, raw, suffix, finished)
  {
    OpenedGrows(infill, raw, longer);
    var body, body' := Opened(infill, raw).value, Opened(infill, longer).value;
    FindIsStable(body, body', infill.closeTag);
    assert UpToClose(infill, body) == UpToClose(infill, body');
  }

  /** The exact condition for stable visible text in general. While the open tag is missing from
      unfinished text nothing is shown. After that, text grows unless the close tag completes in the
      longer text with a part of it already in the shorter: then it grows exactly when that part too
      was held back as an overlap with the suffix. */
  predicate Steady(infill: Infill, raw: string, longer: string, suffix: string)
    requires raw <= longer && Opened(infill, raw).Some?
  {
    OpenedGrows(infill, raw, longer);
    var body, body' := Opened(infill, raw).value, Opened(infill, longer).value;
    match CloseAt(infill, body')
    case None => true
    case Some(end) =>
      ClosedBy(infill, raw) || |body| <= end
      || LongestOverlap(body, suffix) == LongestOverlap(body[..end], suffix) + |body| - end
  }

  lemma OpenedVisibleGrowsIffSteady(infill: Infill, raw: string, longer: string, suffix: string, finished: bool,
                                    later: bool)
    requires raw <= longer && Opened(infill, raw).Some?
    ensures Visible(infill, raw, suffix, finished) <= Visible(infill, longer, suffix, later) <==>
              Steady(infill, raw, longer, suffix)
  {
    OpenedGrows(infill, raw, longer);
    var body, body' := Opened(infill, raw).value, Opened(infill, longer).value;
    if ClosedBy(infill, raw) {
      ConstantAfterClose(infill, raw, longer, suffix, finished, later);
    } else if CloseAt(infill, body').None? {
      TrimmedGrows(body, body', suffix);
    } else {
      var end := CloseAt(infill, body').value;
      if |body| <= end {
        TrimmedGrows(body, body'[..end], suffix);
      } else {
        assert body[..end] == body'[..end];
        TrimmedGrows(body[..end], body, suffix);
      }
    }
  }

  /** After the open tag only text behind it is shown. */
  lemma OpenedShowsBody(infill: Infill, raw: string, suffix: string, finished: bool)
    requires Opened(infill, raw).Some?
    ensures Visible(infill, raw, suffix, finished) <= Opened(infill, raw).value
  {
  }

  lemma UnopenedShowsNothing(infill: Infill, raw: string, suffix: string)
    requires Opened(infill, raw).None?
    ensures Visible(infill, raw, suffix, false) == []
  {
  }

  /** A close tag that arrives in two parts is shown in part and taken back. */
  lemma SplitCloseTagIsTakenBack(body: string, part: string, rest: string, suffix: string)
    requires part != [] && rest != []
    requires Find(body + part + rest, part + rest) == Some(|body|) && Find(body + part, part + rest) == None
    requires LongestOverlap(body + part, suffix) == 0
    ensures var infill := ChatFallback([], part + rest);
            && Visible(infill, body + part, suffix, false) == body + part
            && Visible(infill, body + part + rest, suffix, false) == Trimmed(body, suffix)
            && !(Visible(infill, body + part, suffix, false) <= Visible(infill, body + part + rest, suffix, false))
  {
    hide Find, LongestOverlap, Visible, Trimmed;
    var close := part + rest;
    assert body + part + rest == body + close;
    VisibleUpToClose(close, body + part, suffix);
    VisibleUpToClose(close, body + part + rest, suffix);
    assert (body + part + rest)[..|body|] == body;
    NothingTrimmed(body + part, suffix);
    TrimmedIsPrefix(body, suffix);
  }

  /** Without an open tag everything up to the close tag is shown, trimmed. */
  lemma VisibleUpToClose(close: string, raw: string, suffix: string)
    requires close != []
    ensures Visible(ChatFallback([], close), raw, suffix, false) ==
              Trimmed(match Find(raw, close) case None => raw case Some(end) => raw[..end], suffix)
  {
    hide Trimmed;
    EmptyTagOpens(ChatFallback([], close), raw);
  }

  lemma NothingTrimmed(text: string, suffix: string)
    requires LongestOverlap(text, suffix) == 0
    ensures Trimmed(text, suffix) == text
  {
  }

  lemma TrimmedIsPrefix(text: string, suffix: string)
    ensures Trimmed(text, suffix) <= text
  {
  }

  lemma EmptyTagFound(raw: string)
    ensures Find(raw, []) == Some(0) && raw[0..] == raw
  {
    assert OccursAt(raw, [], 0);
  }

  lemma EmptyTagOpens(infill: Infill, raw: string)
    requires infill.ChatFallback? && infill.openTag == []
    ensures Opened(infill, raw) == Some(raw)
  {
    assert OccursAt(raw, [], 0);
  }
}
