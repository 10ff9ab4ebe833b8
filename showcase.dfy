/** The kiosk's speaker strip (components/SpeakersShowcase.js): the first
    speaker is featured under a LIVE chip, the others scroll in a slider that
    holds them twice so the animation can loop. */
module Showcase {
  import opened Common
  import opened Text
  import opened Models

  /** What is rendered: the featured card (which always carries the LIVE chip)
      and the slider's items. */
  datatype Layout = Layout(featured: Speaker, slider: seq<Speaker>)

  /** `const [featured, ...rest] = speakers; const sliderItems = [...rest, ...rest]`,
      after the early `return null` for a missing or empty list. The
      arrangement reads no clock: the chip goes to the first entry whatever
      the time slots say. */
  function Arrange(speakers: Option<seq<Speaker>>): (r: Option<Layout>)
    ensures r.None? <==> speakers.None? || speakers.value == []
    ensures r.Some? ==> r.value.featured == speakers.value[0] && |r.value.slider| == 2 * (|speakers.value| - 1)
  {
    if speakers.None? || |speakers.value| == 0 then None
    else
      var rest := speakers.value[1..];
      Some(Layout(speakers.value[0], rest + rest))
  }

  /** Nothing is rendered exactly for a missing or empty list; otherwise the
      featured speaker is the first, and the slider holds the `n - 1` others
      in order, twice: item `i` and item `i + n - 1` are both speaker `i + 1`. */
  lemma ArrangementShape(speakers: Option<seq<Speaker>>)
    ensures Arrange(speakers).None? <==> speakers.None? || speakers.value == []
    ensures Arrange(speakers).Some? ==>
      var s, l := speakers.value, Arrange(speakers).value;
      && l.featured == s[0]
      && |l.slider| == 2 * (|s| - 1)
      && (forall i :: 0 <= i < |s| - 1 ==> l.slider[i] == s[i + 1])
      && (forall i :: 0 <= i < |s| - 1 ==> l.slider[i + |s| - 1] == l.slider[i])
  {
  }

  /** A card's React key: `${s.id}-${idx}`. The id part is whatever text
      `s.id` renders as (the string `undefined` for a document that only has
      `_id`). */
  function CardKey(idText: string, idx: nat): (r: string)
    ensures |r| > |idText| + 1 && r[..|idText|] == idText && r[|idText|] == '-'
  {
    idText + "-" + Decimal(idx)
  }

  /** The keys of two different slider positions differ, whatever the ids:
      the index after the last `-` decides. */
  lemma CardKeysDistinct(p: string, q: string, i: nat, j: nat)
    requires i != j
    ensures CardKey(p, i) != CardKey(q, j)
  {
    if CardKey(p, i) == CardKey(q, j) {
      DigitSuffixesEqual(p, Decimal(i), q, Decimal(j));
      DecimalInjective(i, j);
    }
  }

  /** If `a-d` and `b-e` are the same string and `d`, `e` are digit strings,
      then `d` and `e` are the same. */
  lemma DigitSuffixesEqual(a: string, d: string, b: string, e: string)
    requires forall k :: 0 <= k < |d| ==> '0' <= d[k] <= '9'
    requires forall k :: 0 <= k < |e| ==> '0' <= e[k] <= '9'
    requires a + "-" + d == b + "-" + e
    ensures d == e
  {
    var s := a + "-" + d;
    var t := b + "-" + e;
    // The dash before each suffix is not a digit, so neither suffix is longer.
    assert s[|s| - |d| - 1] == '-' && t[|t| - |e| - 1] == '-';
    assert forall k :: |s| - |d| <= k < |s| ==> '0' <= s[k] <= '9';
    assert forall k :: |t| - |e| <= k < |t| ==> '0' <= t[k] <= '9';
    assert |d| == |e|;
    assert d == s[|s| - |d|..];
    assert e == t[|t| - |e|..];
  }

  /** Every slider position has a key no other position shares. */
  lemma SliderKeysDistinct(speakers: seq<Speaker>, i: nat, j: nat)
    requires Arrange(Some(speakers)).Some?
    requires i < j < |Arrange(Some(speakers)).value.slider|
    ensures var items := Arrange(Some(speakers)).value.slider;
      CardKey(items[i].id, i) != CardKey(items[j].id, j)
  {
    var items := Arrange(Some(speakers)).value.slider;
    CardKeysDistinct(items[i].id, items[j].id, i, j);
  }
}
