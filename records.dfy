/**
 * The verification records (`VerificationData` in src/pages/Index.tsx)
 * and the first-match search `verifications.find(...)` that the admin tab
 * uses to look a record up by its code.
 */
module Records {
  import opened Wrappers

  datatype ContactType = Email | Phone

  /** An uploaded image; the page only ever asks whether one is present. */
  datatype Photo = Photo(fileName: string)

  datatype Record = Record(
    name: string,
    age: string,
    contact: string,
    contactType: ContactType,
    company: string,
    verificationCode: string,
    photo: Option<Photo>,
    movieName: string,
    movieDate: string,
    movieTime: string)

  predicate HasCode(r: Record, code: string) {
    r.verificationCode == code
  }

  /** `i` is the position of the first record whose code is `code`. */
  predicate IsFirstMatch(records: seq<Record>, code: string, i: int) {
    0 <= i < |records| && HasCode(records[i], code) &&
    forall j :: 0 <= j < i ==> !HasCode(records[j], code)
  }

  /** `Array.prototype.find` with the predicate "code equals `code`". */
  function Find(records: seq<Record>, code: string): (r: Option<Record>)
    ensures r.None? <==> forall i :: 0 <= i < |records| ==> !HasCode(records[i], code)
    ensures r.Some? ==> exists i :: IsFirstMatch(records, code, i) && records[i] == r.value
  {
    if records == [] then None
    else if HasCode(records[0], code) then
      assert IsFirstMatch(records, code, 0);
      Some(records[0])
    else
      var rest := Find(records[1..], code);
      if rest.Some? then
        var i :| IsFirstMatch(records[1..], code, i) && records[1..][i] == rest.value;
        assert IsFirstMatch(records, code, i + 1);
        rest
      else
        rest
  }

  /** The scan behind `find`: the first record carrying `code`, if any. */
  method FindFirst(records: seq<Record>, code: string) returns (found: Option<Record>)
    ensures found == Find(records, code)
  {
    var i := 0;
    while i < |records|
      invariant 0 <= i <= |records|
      invariant Find(records, code) == Find(records[i..], code)
    {
      if HasCode(records[i], code) {
        return Some(records[i]);
      }
      assert records[i..][1..] == records[i + 1..];
      i := i + 1;
    }
    return None;
  }

  /**
   * Appending a record never changes a hit: an earlier record shadows a
   * later one with the same code, and the new record is found only when no
   * earlier one carries its code.
   */
  lemma {:induction false} FindAppend(records: seq<Record>, x: Record, code: string)
    ensures Find(records + [x], code) ==
      if Find(records, code).Some? then Find(records, code)
      else if HasCode(x, code) then Some(x)
      else None
  {
    if records != [] {
      assert (records + [x])[1..] == records[1..] + [x];
      FindAppend(records[1..], x, code);
    }
  }
}
