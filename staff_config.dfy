/** Positions of the first-octave notes on the treble staff. */
module StaffConfig {
  import opened PianoTypes
  import opened PianoConfig

  /** `NOTE_STAFF_POSITIONS`: 0 is the middle line (B), each step one line or space. */
  const NOTE_STAFF_POSITIONS: map<string, int> := map[
    "C" := -6, "C#" := -6,
    "D" := -5, "D#" := -5,
    "E" := -4,
    "F" := -3, "F#" := -3,
    "G" := -2, "G#" := -2,
    "A" := -1, "A#" := -1,
    "B" := 0
  ]

  const NATURALS: seq<string> := ["C", "D", "E", "F", "G", "A", "B"]

  /** Middle C sits on the ledger line, E on the bottom line, B on the middle line. */
  lemma StaffLandmarks()
    ensures NOTE_STAFF_POSITIONS["C"] == -6
    ensures NOTE_STAFF_POSITIONS["E"] == -4
    ensures NOTE_STAFF_POSITIONS["B"] == 0
  {
  }

  /** The naturals C to B occupy the consecutive positions -6 to 0. */
  lemma NaturalsConsecutive()
    ensures forall i :: 0 <= i < |NATURALS| ==>
      NATURALS[i] in NOTE_STAFF_POSITIONS && NOTE_STAFF_POSITIONS[NATURALS[i]] == i - 6
  {
  }

  /** Every sharp is placed on its natural letter's position. */
  lemma SharpsOnTheirLetter(k: NoteName)
    requires k in BLACK_KEYS
    ensures NameOf(k) in NOTE_STAFF_POSITIONS && [NameOf(k)[0]] in NOTE_STAFF_POSITIONS
    ensures NOTE_STAFF_POSITIONS[NameOf(k)] == NOTE_STAFF_POSITIONS[[NameOf(k)[0]]]
  {
  }

  /** The table has exactly the first-octave names as keys; second-octave names fall through. */
  lemma StaffTableKeys(k: NoteName)
    ensures NameOf(k) in NOTE_STAFF_POSITIONS <==> FirstOctave(k) == k
  {
  }
}
