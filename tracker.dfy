/** The tracker factory: a tracking mode named by a string selects one of the
    three detector variants, and any other name is a configuration error. */
module Tracker {
  import opened Wrappers

  datatype TrackerKind = Colour | Person | Face

  datatype Result<+T> = Ok(value: T) | Err(message: string)

  function LowerChar(c: char): (d: char)
    ensures 'A' <= c <= 'Z' ==> 'a' <= d <= 'z' && d as int - c as int == 32
    ensures !('A' <= c <= 'Z') ==> d == c
  {
    if 'A' <= c <= 'Z' then (c as int + 32) as char else c
  }

  /** `str.lower()` on ASCII letters. */
  function Lower(s: string): (t: string)
    ensures |t| == |s|
    ensures forall i :: 0 <= i < |s| ==> t[i] == LowerChar(s[i])
  {
    if s == [] then [] else [LowerChar(s[0])] + Lower(s[1..])
  }

  /** Lowering twice is lowering once. */
  lemma LowerIdempotent(s: string)
    ensures Lower(Lower(s)) == Lower(s)
  {
    assert forall i :: 0 <= i < |s| ==> LowerChar(LowerChar(s[i])) == LowerChar(s[i]);
  }

  /** `make_tracker(mode)`: `None` counts as the empty string. */
  function MakeTracker(mode: Option<string>): (r: Result<TrackerKind>)
    ensures r == Ok(Colour) <==> Lower(mode.GetOr("")) == "colour"
    ensures r == Ok(Person) <==> Lower(mode.GetOr("")) == "person"
    ensures r == Ok(Face) <==> Lower(mode.GetOr("")) == "face"
    ensures r.Err? <==> Lower(mode.GetOr("")) !in {"colour", "person", "face"}
    ensures r.Err? ==> r.message == "Unknown TRACK_MODE: " + Lower(mode.GetOr(""))
  {
    var m := Lower(mode.GetOr(""));
    if m == "colour" then Ok(Colour)
    else if m == "person" then Ok(Person)
    else if m == "face" then Ok(Face)
    else Err("Unknown TRACK_MODE: " + m)
  }

  /** Letter case never matters: two names that lower to the same string select the
      same variant, or both fail. */
  lemma MakeTrackerIgnoresCase(a: string, b: string)
    requires Lower(a) == Lower(b)
    ensures MakeTracker(Some(a)) == MakeTracker(Some(b))
  {
  }

  /** Worked examples of MakeTracker's contract: the American spelling, the empty name
      and `None` are rejected, and mixed-case names are accepted. */
  lemma MakeTrackerRejects()
    ensures MakeTracker(Some("color")).Err?
    ensures MakeTracker(Some("")).Err?
    ensures MakeTracker(None).Err?
    ensures MakeTracker(Some("FACE")) == Ok(Face)
    ensures MakeTracker(Some("Colour")) == Ok(Colour)
    ensures MakeTracker(Some("PeRsOn")) == Ok(Person)
  {
  }
}
