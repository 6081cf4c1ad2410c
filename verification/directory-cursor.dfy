/**
 * The opaque cursor of the public directory: `updated|id`, read back at the
 * last bar. The base64url wrapping is left out: a cursor here is the text inside.
 */
module DirectoryCursor {

  datatype Place = Place(updated: string, id: string)
  datatype Decoded = Valid(place: Place) | NotValid

  function EncodeCursor(place: Place): string {
    place.updated + "|" + place.id
  }

  /** The index of the last bar, or -1. */
  function LastBar(s: string): (i: int)
    ensures -1 <= i < |s|
    ensures i >= 0 ==> s[i] == '|'
    ensures forall j :: i < j < |s| ==> s[j] != '|'
  {
    if s == [] then -1
    else if s[|s| - 1] == '|' then |s| - 1
    else LastBar(s[..|s| - 1])
  }

  /** `dated` is the platform's answer to whether a text parses as a date. */
  function DecodeCursor(cursor: string, dated: string -> bool): Decoded {
    var separator := LastBar(cursor);
    var updated := if separator > 0 then cursor[..separator] else "";
    var id := if separator > 0 then cursor[separator + 1..] else "";
    if updated == "" || id == "" || !dated(updated) then NotValid else Valid(Place(updated, id))
  }

  lemma LastBarOfEncoded(place: Place)
    requires '|' !in place.id
    ensures LastBar(EncodeCursor(place)) == |place.updated|
  {
    var s := EncodeCursor(place);
    assert s[|place.updated|] == '|';
    forall j | |place.updated| < j < |s| ensures s[j] != '|' {
      assert s[j] == place.id[j - |place.updated| - 1];
    }
  }

  /** A cursor the server hands out resumes where it said, exactly when the id holds no bar and the stamp is a date. */
  lemma RoundTripIff(place: Place, dated: string -> bool)
    ensures DecodeCursor(EncodeCursor(place), dated) == Valid(place)
       <==> '|' !in place.id && place.id != "" && place.updated != "" && dated(place.updated)
  {
    var s := EncodeCursor(place);
    if '|' !in place.id {
      LastBarOfEncoded(place);
      assert s[..|place.updated|] == place.updated;
      assert s[|place.updated| + 1..] == place.id;
    }
  }

  /**
   * Whatever text is accepted as a cursor is the encoding of the place read from
   * it, so no two texts resume at one place.
   */
  lemma AcceptedIsEncoded(cursor: string, dated: string -> bool)
    requires DecodeCursor(cursor, dated).Valid?
    ensures EncodeCursor(DecodeCursor(cursor, dated).place) == cursor
    ensures dated(DecodeCursor(cursor, dated).place.updated)
  {
    var separator := LastBar(cursor);
    assert cursor == cursor[..separator] + [cursor[separator]] + cursor[separator + 1..];
  }
}
