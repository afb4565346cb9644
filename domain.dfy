/** The author and viewer modes and the update statuses of the LabBridge records. */
module Domain {
  import opened Wrappers

  /** `"wet" | "dry"`. */
  datatype Mode = Wet | Dry

  function ModeName(m: Mode): string {
    match m
    case Wet => "wet"
    case Dry => "dry"
  }

  /** `value === "wet" || value === "dry"`, narrowed to the mode it names. */
  function ModeFromString(s: string): (r: Option<Mode>)
    ensures r == Some(Wet) <==> s == "wet"
    ensures r == Some(Dry) <==> s == "dry"
    ensures r.None? <==> s != "wet" && s != "dry"
  {
    if s == "wet" then Some(Wet) else if s == "dry" then Some(Dry) else None
  }

  /** A mode written out by name reads back as the same mode. */
  lemma ModeRoundTrip(m: Mode)
    ensures ModeFromString(ModeName(m)) == Some(m)
  {
  }

  /** `"processing" | "ready" | "error"`. */
  datatype Status = Processing | Ready | Error
}
