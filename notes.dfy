/** Banknote arithmetic of the cash machine: the value of a list of note
    counts, and the 32-bit integer a withdrawal amount becomes when it is handed
    to the money box. */
module Notes {

  /** Face values in the order of the note-count list a deposit carries:
      [5000, 1000, 500, 100]. */
  const ListFaces: seq<int> := [5000, 1000, 500, 100]

  /** Face values in the order the money box takes the counts:
      (100, 500, 1000, 5000). */
  const BoxFaces: seq<int> := [100, 500, 1000, 5000]

  const TwoTo31: int := 0x8000_0000
  const TwoTo32: int := 0x1_0000_0000

  /** The value of counts[i] notes of face faces[i], summed over i. */
  function Value(counts: seq<int>, faces: seq<int>): (v: int)
    requires |counts| == |faces|
    ensures (forall i :: 0 <= i < |counts| ==> counts[i] >= 0 && faces[i] >= 0) ==> v >= 0
  {
    if counts == [] then 0 else counts[0] * faces[0] + Value(counts[1..], faces[1..])
  }

  /** The value of four counts is the plain sum of their four products. */
  lemma ValueOfFour(counts: seq<int>, faces: seq<int>)
    requires |counts| == |faces| == 4
    ensures Value(counts, faces)
         == counts[0] * faces[0] + counts[1] * faces[1] + counts[2] * faces[2] + counts[3] * faces[3]
  {
    var c1, f1 := counts[1..], faces[1..];
    var c2, f2 := c1[1..], f1[1..];
    var c3, f3 := c2[1..], f2[1..];
    assert c3[1..] == [] && f3[1..] == [];
    assert Value(c3, f3) == counts[3] * faces[3];
    assert Value(c2, f2) == counts[2] * faces[2] + counts[3] * faces[3];
  }

  /** The value a deposit of the note list [n5000, n1000, n500, n100] is
      worth. */
  function NotesValue(notes: seq<int>): (v: int)
    requires |notes| == |ListFaces|
    ensures v == 100 * notes[3] + 500 * notes[2] + 1000 * notes[1] + 5000 * notes[0]
    ensures (forall i :: 0 <= i < |notes| ==> notes[i] >= 0) ==> v >= 0
  {
    ValueOfFour(notes, ListFaces);
    Value(notes, ListFaces)
  }

  /** The counts as the money box takes them: (n100, n500, n1000, n5000). The
      box's count for a face value is the list's count for the same face
      value. */
  function BoxCounts(notes: seq<int>): (c: seq<int>)
    requires |notes| == |ListFaces|
    ensures |c| == |BoxFaces|
    ensures forall i, j :: 0 <= i < |c| && 0 <= j < |notes| && BoxFaces[i] == ListFaces[j] ==> c[i] == notes[j]
  {
    [notes[3], notes[2], notes[1], notes[0]]
  }

  /** The notes the money box takes in are worth exactly what the deposit
      credits to the card. */
  lemma BoxTakesCreditedValue(notes: seq<int>)
    requires |notes| == |ListFaces|
    ensures Value(BoxCounts(notes), BoxFaces) == NotesValue(notes)
  {
    ValueOfFour(BoxCounts(notes), BoxFaces);
  }

  /** BigDecimal.intValue() of a whole amount: its low 32 bits, read as a
      two's-complement int. */
  function IntValue(x: int): (v: int)
    ensures -TwoTo31 <= v < TwoTo31
    ensures (x - v) % TwoTo32 == 0
    ensures -TwoTo31 <= x < TwoTo31 ==> v == x
  {
    var low := x % TwoTo32;
    if low < TwoTo31 then low else low - TwoTo32
  }
}
