/** Editing the prize list from the admin panel: the delete button handler
    (script.js:285-295) and the add button handler (script.js:320-329). Both
    guard their change so that a list holding between 2 and 20 prizes keeps
    doing so. */
module PrizeList {
  import opened PrizeText
  import opened Wrappers

  /** Fewest prizes a delete may leave behind. */
  const MinPrizes: nat := 2

  /** Most prizes an add may create. */
  const MaxPrizes: nat := 20

  /** The list used when nothing has been stored yet (script.js:58-67). */
  const DefaultPrizes: seq<string> := [
    "STICKER PACK", "COURSE GUIDE", "T-SHIRT", "USB KEY",
    "HACKME VOUCHER", "CTF PASS", "LANYARD", "RETRY"
  ]

  predicate InBounds(prizes: seq<string>)
  {
    MinPrizes <= |prizes| <= MaxPrizes
  }

  /** `prizes.splice(idx, 1)` for a non-negative index: the entry at `idx`
      is removed and the others keep their order; an index past the end
      removes nothing. */
  function RemoveAt(prizes: seq<string>, idx: nat): (r: seq<string>)
    ensures idx < |prizes| ==> |r| == |prizes| - 1
    ensures idx < |prizes| ==> forall j :: 0 <= j < idx ==> r[j] == prizes[j]
    ensures idx < |prizes| ==> forall j :: idx <= j < |r| ==> r[j] == prizes[j + 1]
    ensures idx < |prizes| ==> multiset(r) + multiset{prizes[idx]} == multiset(prizes)
    ensures idx >= |prizes| ==> r == prizes
  {
    if idx < |prizes| then
      assert prizes == prizes[..idx] + [prizes[idx]] + prizes[idx + 1..];
      prizes[..idx] + prizes[idx + 1..]
    else prizes
  }

  /** The delete button's guard: the list must hold more than two prizes,
      otherwise the handler reports an integrity error and changes nothing.
      Put otherwise, a delete is allowed exactly when removing an entry
      still leaves at least two. */
  function DeleteAllowed(prizes: seq<string>): (ok: bool)
    ensures ok <==> |prizes| > 0 && |RemoveAt(prizes, 0)| >= MinPrizes
  {
    |prizes| > MinPrizes
  }

  /** The list after the delete button of entry `idx` is pressed. */
  function Delete(prizes: seq<string>, idx: nat): (r: seq<string>)
    ensures !DeleteAllowed(prizes) ==> r == prizes
    ensures DeleteAllowed(prizes) ==> r == RemoveAt(prizes, idx)
  {
    if DeleteAllowed(prizes) then RemoveAt(prizes, idx) else prizes
  }

  /** The add button's guard: the normalised label must be non-empty and the
      list must hold fewer than twenty prizes; otherwise nothing happens.
      So a blank value is always refused, and any other value is accepted
      exactly when the list still has room for one more. */
  function AddAllowed(prizes: seq<string>, input: string): (ok: bool)
    ensures ok <==> !AllWhitespace(input) && |prizes| + 1 <= MaxPrizes
  {
    Label(input) != [] && |prizes| < MaxPrizes
  }

  /** The list after the add button is pressed with `input` typed in: the
      normalised label is pushed at the end, everything before it unchanged. */
  function Add(prizes: seq<string>, input: string): (r: seq<string>)
    ensures AddAllowed(prizes, input) ==> |r| == |prizes| + 1 && r[..|prizes|] == prizes
    ensures AddAllowed(prizes, input) ==> r[|prizes|] == Label(input)
    ensures !AddAllowed(prizes, input) ==> r == prizes
  {
    if AddAllowed(prizes, input) then prizes + [Label(input)] else prizes
  }

  /** A delete keeps a list that holds 2 to 20 prizes within those bounds, and
      the list shrinks by one exactly when the guard passes and the index is
      in range. */
  lemma DeleteKeepsBounds(prizes: seq<string>, idx: nat)
    requires InBounds(prizes)
    ensures InBounds(Delete(prizes, idx))
    ensures |Delete(prizes, idx)| == |prizes| - 1 <==> DeleteAllowed(prizes) && idx < |prizes|
  {
  }

  /** An add keeps a list that holds 2 to 20 prizes within those bounds. */
  lemma AddKeepsBounds(prizes: seq<string>, input: string)
    requires InBounds(prizes)
    ensures InBounds(Add(prizes, input))
    ensures |Add(prizes, input)| == |prizes| + 1 <==> AddAllowed(prizes, input)
  {
  }

  /** The smallest list refuses a delete; the largest refuses an add. */
  lemma EdgesRefuse(prizes: seq<string>, idx: nat, input: string)
    ensures |prizes| == MinPrizes ==> Delete(prizes, idx) == prizes
    ensures |prizes| == MaxPrizes ==> Add(prizes, input) == prizes
  {
  }

  /** Deleting the entry just added gives back the list as it was. */
  lemma AddThenDeleteLast(prizes: seq<string>, input: string)
    requires AddAllowed(prizes, input) && |prizes| >= MinPrizes
    ensures Delete(Add(prizes, input), |prizes|) == prizes
  {
    var added := Add(prizes, input);
    assert added[..|prizes|] == prizes;
  }

  /** `loadPrizes` (script.js:53-71): the list kept in storage when there is
      one (`None` when nothing is stored), otherwise the default list. A
      stored list is taken as it is, whatever its length. */
  function Load(stored: Option<seq<string>>): (r: seq<string>)
    ensures stored.Some? ==> r == stored.value
    ensures stored.None? ==> r == DefaultPrizes && InBounds(r)
  {
    match stored
    case Some(list) => list
    case None => DefaultPrizes
  }
}
