/** A deep-link path remembered so the web page can resume there, usable for 12 hours. */
module SavedPaths {
  import opened Wrappers
  import opened Foundation
  import opened Coding

  /** `date` is a `Date`: seconds since the reference date. */
  datatype SavedPath = SavedPath(path: string, date: real)

  /** `SavedPath(path:)`, stamped with the current time `now`. */
  function NewSavedPath(path: string, now: real): (p: SavedPath)
    ensures p.path == path && p.date == now
  {
    SavedPath(path, now)
  }

  /**
   * The `.hour` component between two dates: the whole hours elapsed,
   * truncated toward zero (negative when `to` is earlier than `from`).
   */
  function ElapsedHours(from: real, to: real): (h: int)
    ensures to - from >= 0.0 ==> h >= 0 && h as real * 3600.0 <= to - from < (h + 1) as real * 3600.0
    ensures to - from < 0.0 ==> h <= 0 && (h - 1) as real * 3600.0 < to - from <= h as real * 3600.0
  {
    var hours := (to - from) / 3600.0;
    assert to - from == hours * 3600.0;
    if hours >= 0.0 then hours.Floor else -((-hours).Floor)
  }

  /** `canBeUsed()` at time `now`: usable exactly while less than twelve hours have passed since the stamp. */
  predicate CanBeUsed(p: SavedPath, now: real): (r: bool)
    ensures r <==> now - p.date < 43200.0
  {
    ElapsedHours(p.date, now) < 12
  }

  /** A path stamped now, or dated in the future (a clock set back), is usable. */
  lemma FreshPathUsable(path: string, now: real, later: real)
    requires later <= now
    ensures CanBeUsed(NewSavedPath(path, now), now)
    ensures CanBeUsed(NewSavedPath(path, now), later)
  {
  }

  /** 11h59m after stamping the path is usable, from 12h00m on it is not. */
  lemma TwelveHourBoundary(p: SavedPath)
    ensures CanBeUsed(p, p.date + 43140.0)
    ensures !CanBeUsed(p, p.date + 43200.0)
    ensures !CanBeUsed(p, p.date + 46800.0)
  {
  }

  /** The synthesised encoder: both fields are written, the date as a number. */
  function EncodeSavedPath(p: SavedPath): Json
  {
    JObject(map["path" := JString(p.path), "date" := JNumber(p.date)])
  }

  /**
   * The synthesised decoder: both keys are required, `path` is read first.
   * Null is valueNotFound, any other non-object a type mismatch; on success
   * the object holds the path as a string and the date as a number.
   */
  function DecodeSavedPath(j: Json): (r: Result<SavedPath, DecodingError>)
    ensures j.JNull? ==> r == Failure(ValueNotFound)
    ensures !j.JObject? && !j.JNull? ==> r == Failure(TypeMismatch)
    ensures j.JObject? && "path" !in j.fields ==> r == Failure(KeyNotFound)
    ensures j.JObject? && "path" in j.fields && j.fields["path"].JNull? ==> r == Failure(ValueNotFound)
    ensures r.Success? ==> j.JObject? && "path" in j.fields && "date" in j.fields &&
                           j.fields["path"] == JString(r.value.path) && j.fields["date"] == JNumber(r.value.date)
  {
    if !j.JObject? then Failure(WrongKind(j))
    else
      var path :- DecodeRequired(j.fields, "path", DecodeString);
      var date :- DecodeRequired(j.fields, "date", DecodeDouble);
      Success(SavedPath(path, date))
  }

  lemma SavedPathRoundTrip(p: SavedPath)
    ensures DecodeSavedPath(EncodeSavedPath(p)) == Success(p)
  {
  }
}
