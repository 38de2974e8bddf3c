/** The two personas both controllers switch between, and their names. */
module Personas {
  import opened Text

  datatype Mode = Fighter | Herobrine

  /** The lower-case name: `'fighter'` or `'herobrine'`. */
  function ModeName(m: Mode): string {
    match m
    case Fighter => "fighter"
    case Herobrine => "herobrine"
  }

  /** `mode.toUpperCase()`: the name in capitals, which lower-cases back to the name. */
  function ModeUpper(m: Mode): (s: string)
    ensures forall i :: 0 <= i < |s| ==> IsUpper(s[i])
    ensures ToLower(s) == ModeName(m)
  {
    match m
    case Fighter => "FIGHTER"
    case Herobrine => "HEROBRINE"
  }

  /** The other persona. */
  function Other(m: Mode): (r: Mode)
    ensures r != m
  {
    if m == Fighter then Herobrine else Fighter
  }
}
