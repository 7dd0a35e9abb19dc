/**
 * The list of generated captions the component keeps in `generatedCaptions`:
 * the record of one caption, the identifiers a generation gives them, and the
 * two list updates behind the star rating and the bookmark button.  Both
 * updates are `prev.map(...)` over the whole list, so they are functions here;
 * the component's state class applies them.
 */
module CaptionList {
  import opened Text

  /** `CaptionData`.  The rating is whatever number was passed to the rating
      handler (the star buttons pass 1 to 5, a fresh caption has 0). */
  datatype Caption = Caption(id: string, text: string, rating: int, saved: bool)

  /** The identifiers, in list order. */
  function Ids(cs: seq<Caption>): (ids: seq<string>)
    ensures |ids| == |cs|
    ensures forall i :: 0 <= i < |cs| ==> ids[i] == cs[i].id
  {
    seq(|cs|, i requires 0 <= i < |cs| => cs[i].id)
  }

  predicate DistinctIds(cs: seq<Caption>) {
    forall i, j :: 0 <= i < j < |cs| ==> cs[i].id != cs[j].id
  }

  /** `caption-${Date.now()}-${index}`. */
  function CaptionId(stamp: nat, index: nat): (id: string)
    ensures StartsWith(id, "caption-")
  {
    var id := "caption-" + (Decimal(stamp) + "-" + Decimal(index));
    assert id[..8] == "caption-";
    id
  }

  /** In digits followed by a dash, the dash is the first dash. */
  lemma DashAfterDigits(a: string, x: string)
    requires IsDigits(a)
    ensures (a + "-" + x)[|a|] == '-'
    ensures forall k :: 0 <= k < |a| ==> (a + "-" + x)[k] != '-'
  {
  }

  /** An identifier determines the time stamp and the index it was made from. */
  lemma CaptionIdInjective(stamp1: nat, index1: nat, stamp2: nat, index2: nat)
    requires CaptionId(stamp1, index1) == CaptionId(stamp2, index2)
    ensures stamp1 == stamp2 && index1 == index2
  {
    var a, x := Decimal(stamp1), Decimal(index1);
    var b, y := Decimal(stamp2), Decimal(index2);
    var u, v := a + "-" + x, b + "-" + y;
    assert u == CaptionId(stamp1, index1)[8..];
    assert v == CaptionId(stamp2, index2)[8..];
    DashAfterDigits(a, x);
    DashAfterDigits(b, y);
    assert |a| == |b|;
    assert a == u[..|a|] && b == v[..|b|];
    assert x == u[|a| + 1..] && y == v[|b| + 1..];
    DecimalInjective(stamp1, stamp2);
    DecimalInjective(index1, index2);
  }

  /** The records a completed generation stores: one per caption text, in
      order, each with the time stamp read for it and its index as identifier,
      unrated and not saved. */
  function NewBatch(texts: seq<string>, stamps: seq<nat>): (batch: seq<Caption>)
    requires |stamps| == |texts|
    ensures |batch| == |texts|
    ensures forall i :: 0 <= i < |batch| ==> && batch[i].id == CaptionId(stamps[i], i)
                                             && batch[i].text == texts[i]
                                             && batch[i].rating == 0
                                             && !batch[i].saved
    ensures DistinctIds(batch)
  {
    var batch := seq(|texts|, i requires 0 <= i < |texts| => Caption(CaptionId(stamps[i], i), texts[i], 0, false));
    forall i, j | 0 <= i < j < |batch| ensures batch[i].id != batch[j].id {
      if batch[i].id == batch[j].id {
        CaptionIdInjective(stamps[i], i, stamps[j], j);
      }
    }
    batch
  }

  /** `rateCaption`: every record whose identifier is `id` gets the new
      rating; nothing else changes, and the list keeps its length and order. */
  function Rate(cs: seq<Caption>, id: string, rating: int): (r: seq<Caption>)
    ensures |r| == |cs| && Ids(r) == Ids(cs)
    ensures forall i :: 0 <= i < |cs| ==> && r[i].id == cs[i].id
                                          && r[i].text == cs[i].text
                                          && r[i].saved == cs[i].saved
                                          && r[i].rating == (if cs[i].id == id then rating else cs[i].rating)
  {
    seq(|cs|, i requires 0 <= i < |cs| => if cs[i].id == id then cs[i].(rating := rating) else cs[i])
  }

  /** `toggleSaved`: every record whose identifier is `id` has its bookmark
      flipped; nothing else changes, and the list keeps its length and order. */
  function ToggleSaved(cs: seq<Caption>, id: string): (r: seq<Caption>)
    ensures |r| == |cs| && Ids(r) == Ids(cs)
    ensures forall i :: 0 <= i < |cs| ==> && r[i].id == cs[i].id
                                          && r[i].text == cs[i].text
                                          && r[i].rating == cs[i].rating
                                          && r[i].saved == (if cs[i].id == id then !cs[i].saved else cs[i].saved)
  {
    seq(|cs|, i requires 0 <= i < |cs| => if cs[i].id == id then cs[i].(saved := !cs[i].saved) else cs[i])
  }

  /** Rating an identifier that is not in the list leaves it as it is. */
  lemma RateUnknownId(cs: seq<Caption>, id: string, rating: int)
    requires id !in Ids(cs)
    ensures Rate(cs, id, rating) == cs
  {
    var r := Rate(cs, id, rating);
    forall i | 0 <= i < |cs| ensures r[i] == cs[i] {
      assert Ids(cs)[i] == cs[i].id;
    }
  }

  /** Bookmarking an identifier that is not in the list leaves it as it is. */
  lemma ToggleUnknownId(cs: seq<Caption>, id: string)
    requires id !in Ids(cs)
    ensures ToggleSaved(cs, id) == cs
  {
    var r := ToggleSaved(cs, id);
    forall i | 0 <= i < |cs| ensures r[i] == cs[i] {
      assert Ids(cs)[i] == cs[i].id;
    }
  }

  /** In a list with distinct identifiers, rating the record at `j` changes
      that record's rating and no other record. */
  lemma RateOne(cs: seq<Caption>, j: nat, rating: int)
    requires DistinctIds(cs) && j < |cs|
    ensures var r := Rate(cs, cs[j].id, rating);
            && r[j] == cs[j].(rating := rating)
            && forall i :: 0 <= i < |cs| && i != j ==> r[i] == cs[i]
  {
  }

  /** In a list with distinct identifiers, bookmarking the record at `j`
      flips that record's flag and changes no other record. */
  lemma ToggleOne(cs: seq<Caption>, j: nat)
    requires DistinctIds(cs) && j < |cs|
    ensures var r := ToggleSaved(cs, cs[j].id);
            && r[j] == cs[j].(saved := !cs[j].saved)
            && forall i :: 0 <= i < |cs| && i != j ==> r[i] == cs[i]
  {
  }

  /** Only the last rating given to a caption is kept. */
  lemma RateLastWins(cs: seq<Caption>, id: string, first: int, second: int)
    ensures Rate(Rate(cs, id, first), id, second) == Rate(cs, id, second)
  {
  }

  /** Pressing the bookmark button twice restores the list. */
  lemma ToggleTwice(cs: seq<Caption>, id: string)
    ensures ToggleSaved(ToggleSaved(cs, id), id) == cs
  {
  }

  /** Rating and bookmarking touch different fields, so their order does not matter. */
  lemma RateToggleCommute(cs: seq<Caption>, id1: string, rating: int, id2: string)
    ensures Rate(ToggleSaved(cs, id2), id1, rating) == ToggleSaved(Rate(cs, id1, rating), id2)
  {
  }

  /** Neither update can make two records share an identifier. */
  lemma UpdatesKeepDistinctIds(cs: seq<Caption>, id: string, rating: int)
    requires DistinctIds(cs)
    ensures DistinctIds(Rate(cs, id, rating)) && DistinctIds(ToggleSaved(cs, id))
  {
  }
}
