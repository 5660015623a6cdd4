/** Label lookup and note-name string helpers used by the screens. */
module GameUtils {
  import opened Wrappers
  import opened PianoTypes
  import opened PianoConfig
  import opened JsString

  /** `table.find((d) => d.value === difficulty)?.label`: the first matching entry's label. */
  function FindLabel(table: seq<DifficultyOption>, difficulty: int): (r: Option<string>)
    ensures r.None? <==> forall i :: 0 <= i < |table| ==> table[i].value != difficulty
    ensures r.Some? ==>
      exists i :: 0 <= i < |table| && table[i].value == difficulty &&
        r.value == table[i].text && forall j :: 0 <= j < i ==> table[j].value != difficulty
  {
    if table == [] then None
    else if table[0].value == difficulty then Some(table[0].text)
    else
      var r := FindLabel(table[1..], difficulty);
      assert r.Some? ==>
        exists i :: 1 <= i < |table| && table[i].value == difficulty &&
          r.value == table[i].text && forall j :: 0 <= j < i ==> table[j].value != difficulty by {
        if r.Some? {
          var i :| 0 <= i < |table[1..]| && table[1..][i].value == difficulty &&
            r.value == table[1..][i].text && forall j :: 0 <= j < i ==> table[1..][j].value != difficulty;
          assert table[i + 1] == table[1..][i];
          forall j | 0 <= j < i + 1 ensures table[j].value != difficulty {
            if j > 0 {
              assert table[j] == table[1..][j - 1];
            }
          }
        }
      }
      r
  }

  /** The human-readable label of a difficulty, or "Unknown" for any other number. */
  function GetDifficultyLabel(difficulty: int): string {
    FindLabel(DIFFICULTIES, difficulty).GetOr("Unknown")
  }

  /** 3, 10, 25 and 100 are Easy, Medium, Hard and Expert; every other value is Unknown. */
  lemma DifficultyLabels(d: int)
    ensures GetDifficultyLabel(d) ==
      if d == 3 then "Easy"
      else if d == 10 then "Medium"
      else if d == 25 then "Hard"
      else if d == 100 then "Expert"
      else "Unknown"
  {
    var r := FindLabel(DIFFICULTIES, d);
    if r.Some? {
      var i :| 0 <= i < |DIFFICULTIES| && DIFFICULTIES[i].value == d && r.value == DIFFICULTIES[i].text;
      assert i == 0 || i == 1 || i == 2 || i == 3;
    } else {
      assert DIFFICULTIES[0].value != d && DIFFICULTIES[1].value != d;
      assert DIFFICULTIES[2].value != d && DIFFICULTIES[3].value != d;
    }
  }

  /** `note.replace('2', '')`: the note name without its (first) octave digit. */
  function GetBaseNoteName(note: string): string {
    ReplaceFirst(note, '2', "")
  }

  /** Only the first '2' is removed; a string without '2' (the empty one too) is returned unchanged. */
  lemma BaseNoteNameRemovesFirstTwo(note: string)
    ensures '2' !in note ==> GetBaseNoteName(note) == note
    ensures '2' in note ==>
      var i := IndexOf(note, '2');
      GetBaseNoteName(note) == note[..i] + note[i + 1..] && '2' !in note[..i]
  {
    var i := IndexOf(note, '2');
    if i < |note| {
      assert note[..i] + "" == note[..i];
      assert '2' !in note[..i] by {
        forall k | 0 <= k < i ensures note[..i][k] != '2' {
        }
      }
    }
  }

  /** The cases the source's tests pin down, and one with two '2's. */
  lemma BaseNoteNameExamples()
    ensures GetBaseNoteName("") == ""
    ensures GetBaseNoteName("C#2") == "C#"
    ensures GetBaseNoteName("F2") == "F"
    ensures GetBaseNoteName("D") == "D"
    ensures GetBaseNoteName("C22") == "C2"
  {
    assert IndexOf("C#2", '2') == 2;
    assert IndexOf("F2", '2') == 1;
    assert IndexOf("C22", '2') == 1;
  }

  /** `note.replace('#', SHARP_SYMBOL).replace('b', FLAT_SYMBOL)`. */
  function FormatNoteAccidentals(note: string): string {
    ReplaceFirst(ReplaceFirst(note, '#', [SHARP_SYMBOL]), 'b', [FLAT_SYMBOL])
  }

  /**
   * Position by position: the first '#' becomes a sharp sign, the first 'b'
   * a flat sign, and every other character is kept.
   */
  lemma FormatNoteAccidentalsAt(note: string, k: nat)
    requires k < |note|
    ensures |FormatNoteAccidentals(note)| == |note|
    ensures FormatNoteAccidentals(note)[k] ==
      if k == IndexOf(note, '#') then SHARP_SYMBOL
      else if k == IndexOf(note, 'b') then FLAT_SYMBOL
      else note[k]
  {
    var mid := ReplaceFirst(note, '#', [SHARP_SYMBOL]);
    forall j | 0 <= j < |note| ensures |mid| == |note| && (mid[j] == 'b' <==> note[j] == 'b') {
      ReplaceFirstAt(note, '#', SHARP_SYMBOL, j);
    }
    IndexOfSameFlags(mid, note, 'b');
    ReplaceFirstAt(note, '#', SHARP_SYMBOL, k);
    ReplaceFirstAt(mid, 'b', FLAT_SYMBOL, k);
  }

  /** Two strings with `c` at the same positions have the same first occurrence of `c`. */
  lemma {:induction false} IndexOfSameFlags(s: string, t: string, c: char)
    requires |s| == |t|
    requires forall j :: 0 <= j < |s| ==> (s[j] == c <==> t[j] == c)
    ensures IndexOf(s, c) == IndexOf(t, c)
  {
    if s != [] && s[0] != c {
      IndexOfSameFlags(s[1..], t[1..], c);
    }
  }

  /** Formatting keeps the length, and changes nothing in a string with no '#' and no 'b'. */
  lemma FormatNoteAccidentalsShape(note: string)
    ensures |FormatNoteAccidentals(note)| == |note|
    ensures '#' !in note && 'b' !in note ==> FormatNoteAccidentals(note) == note
  {
    if note != [] {
      FormatNoteAccidentalsAt(note, 0);
    }
    if '#' !in note && 'b' !in note {
      forall k | 0 <= k < |note| ensures FormatNoteAccidentals(note)[k] == note[k] {
        FormatNoteAccidentalsAt(note, k);
      }
    }
  }

  /** The cases the source's tests pin down. */
  lemma FormatNoteAccidentalsExamples()
    ensures FormatNoteAccidentals("##") == [SHARP_SYMBOL, '#']
    ensures FormatNoteAccidentals("bb") == [FLAT_SYMBOL, 'b']
    ensures FormatNoteAccidentals("C#") == ['C', SHARP_SYMBOL]
    ensures FormatNoteAccidentals("Db") == ['D', FLAT_SYMBOL]
    ensures FormatNoteAccidentals(['D', FLAT_SYMBOL]) == ['D', FLAT_SYMBOL]
    ensures FormatNoteAccidentals("") == ""
  {
    assert IndexOf("##", '#') == 0;
    assert IndexOf([SHARP_SYMBOL, '#'], 'b') == 2;
    assert IndexOf("bb", 'b') == 0;
    assert IndexOf("C#", '#') == 1;
    assert IndexOf(['C', SHARP_SYMBOL], 'b') == 2;
    assert IndexOf("Db", 'b') == 1;
    FormatNoteAccidentalsShape(['D', FLAT_SYMBOL]);
  }
}
