/**
 * Scroll-spy matching rule: walk an ordered list of sections, skip the ones that are not
 * rendered, and pick the first whose half-open vertical span [top, top + height) contains
 * the probe position. With no match, the previously active section is kept.
 */
module ScrollSpy {
  import opened Wrappers

  /** Vertical extent of a rendered section in page coordinates. */
  datatype Span = Span(top: int, height: int)

  /** A section id and its span, or None when its element is not rendered. */
  datatype Entry = Entry(id: string, span: Option<Span>)

  /** Half-open containment: the top edge belongs to the span, the bottom edge does not. */
  predicate Contains(s: Span, probe: int) {
    s.top <= probe && probe < s.top + s.height
  }

  /** A section is hit when it is rendered and its span contains the probe. */
  predicate Hits(e: Entry, probe: int) {
    e.span.Some? && Contains(e.span.value, probe)
  }

  /** Index of the earliest section hit by `probe`, or None when no section is hit. */
  function FirstHit(layout: seq<Entry>, probe: int): (r: Option<nat>)
    ensures r.None? <==> forall k :: 0 <= k < |layout| ==> !Hits(layout[k], probe)
    ensures r.Some? ==> r.value < |layout| && Hits(layout[r.value], probe)
    ensures r.Some? ==> forall k :: 0 <= k < r.value ==> !Hits(layout[k], probe)
  {
    if |layout| == 0 then None
    else if Hits(layout[0], probe) then Some(0)
    else match FirstHit(layout[1..], probe)
      case None => None
      case Some(k) => Some(k + 1)
  }

  /** The active section after one evaluation, given the one active before. */
  function Select(layout: seq<Entry>, probe: int, current: string): (id: string)
    ensures forall k :: 0 <= k < |layout| ==>
              (Hits(layout[k], probe) && forall j :: 0 <= j < k ==> !Hits(layout[j], probe)) ==> id == layout[k].id
    ensures (forall k :: 0 <= k < |layout| ==> !Hits(layout[k], probe)) ==> id == current
    ensures id == current || exists k :: 0 <= k < |layout| && layout[k].id == id && Hits(layout[k], probe)
  {
    match FirstHit(layout, probe)
    case Some(k) => layout[k].id
    case None => current
  }

  /** A section that is not rendered is never hit, so it can be dropped from the list
      without changing which section becomes active. */
  lemma AbsentSectionSkipped(layout: seq<Entry>, i: nat, probe: int, current: string)
    requires i < |layout| && layout[i].span.None?
    ensures FirstHit(layout, probe).None? <==> FirstHit(layout[..i] + layout[i + 1..], probe).None?
    ensures Select(layout, probe, current) == Select(layout[..i] + layout[i + 1..], probe, current)
  {
    var rest := layout[..i] + layout[i + 1..];
    assert |rest| == |layout| - 1;
    assert forall j :: 0 <= j < i ==> rest[j] == layout[j];
    assert forall j :: i <= j < |rest| ==> rest[j] == layout[j + 1];
    match FirstHit(layout, probe)
    case None =>
      forall j | 0 <= j < |rest|
        ensures !Hits(rest[j], probe)
      {
        if j >= i { assert rest[j] == layout[j + 1]; }
      }
    case Some(k) =>
      var k' := if k < i then k else k - 1;
      assert rest[k'] == layout[k];
      forall j | 0 <= j < k'
        ensures !Hits(rest[j], probe)
      {
        if j >= i { assert rest[j] == layout[j + 1]; }
      }
      assert FirstHit(rest, probe) == Some(k');
  }

  /** Re-evaluating at the same probe does not move the active section again. */
  lemma SelectIdempotent(layout: seq<Entry>, probe: int, current: string)
    ensures Select(layout, probe, Select(layout, probe, current)) == Select(layout, probe, current)
  {
  }

  /** When some section is hit, the previously active section has no influence. */
  lemma SelectForgetsHistory(layout: seq<Entry>, probe: int, a: string, b: string)
    requires exists k :: 0 <= k < |layout| && Hits(layout[k], probe)
    ensures Select(layout, probe, a) == Select(layout, probe, b)
  {
  }
}
