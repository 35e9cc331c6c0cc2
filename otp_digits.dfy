/** The six one-character code boxes that OtpPage and both change flows of
    ProfilPage render: a box takes the first digit typed into it, and the
    boxes are joined into the code sent to the server. */
module OtpDigits {
  import opened JsValues

  const SlotCount := 6

  /** `Array(6).fill('')`. */
  const EmptySlots: seq<string> := ["", "", "", "", "", ""]

  /** `value.replace(/\D/g, '').slice(0, 1)`: the first digit typed, or ''. */
  function SlotValue(value: string): (r: string)
    ensures |r| <= 1
    ensures r == "" <==> DigitsOnly(value) == ""
    ensures r != "" ==> r == [DigitsOnly(value)[0]] && IsAsciiDigit(r[0])
  {
    Slice0(DigitsOnly(value), 1)
  }

  /** Six boxes, each empty or holding one digit. */
  predicate SlotsValid(slots: seq<string>) {
    |slots| == SlotCount
    && forall i :: 0 <= i < |slots| ==> |slots[i]| <= 1 && (slots[i] != "" ==> IsAsciiDigit(slots[i][0]))
  }

  /** `slots.join('')`. */
  function Join(slots: seq<string>): string {
    if slots == [] then "" else slots[0] + Join(slots[1..])
  }

  /** Boxes holding at most one character each join to at most that many
      characters, and to exactly that many only when every box is filled. */
  lemma {:induction false} JoinShort(slots: seq<string>)
    requires forall i :: 0 <= i < |slots| ==> |slots[i]| <= 1
    ensures |Join(slots)| <= |slots|
    ensures |Join(slots)| == |slots| <==> forall i :: 0 <= i < |slots| ==> |slots[i]| == 1
  {
    if slots != [] {
      JoinShort(slots[1..]);
      assert forall i :: 1 <= i < |slots| ==> slots[i] == slots[1..][i - 1];
    }
  }

  /** So the length-6 check on the joined code demands that all six boxes be
      filled, and then the code is six digits. */
  lemma {:induction false} FullCodeMeansAllBoxes(slots: seq<string>)
    requires SlotsValid(slots)
    ensures |Join(slots)| == 6 <==> forall i :: 0 <= i < 6 ==> slots[i] != ""
    ensures |Join(slots)| == 6 ==> forall i :: 0 <= i < 6 ==> Join(slots)[i] == slots[i][0]
  {
    JoinShort(slots);
    if |Join(slots)| == 6 {
      JoinOfSingles(slots);
    }
  }

  lemma {:induction false} JoinOfSingles(slots: seq<string>)
    requires forall i :: 0 <= i < |slots| ==> |slots[i]| == 1
    ensures |Join(slots)| == |slots|
    ensures forall i :: 0 <= i < |slots| ==> Join(slots)[i] == slots[i][0]
  {
    if slots != [] {
      JoinOfSingles(slots[1..]);
      assert Join(slots) == slots[0] + Join(slots[1..]);
      forall i | 0 <= i < |slots| ensures Join(slots)[i] == slots[i][0] {
        if i > 0 {
          assert Join(slots)[i] == Join(slots[1..])[i - 1];
          assert slots[1..][i - 1] == slots[i];
        }
      }
    }
  }

  /** Writing one box: the others are untouched and the boxes stay valid. */
  function WriteSlot(slots: seq<string>, index: nat, value: string): (r: seq<string>)
    requires index < |slots|
    ensures |r| == |slots| && r[index] == SlotValue(value)
    ensures forall i :: 0 <= i < |slots| && i != index ==> r[i] == slots[i]
    ensures SlotsValid(slots) ==> SlotsValid(r)
  {
    slots[index := SlotValue(value)]
  }

  lemma EmptySlotsValid()
    ensures SlotsValid(EmptySlots) && Join(EmptySlots) == ""
  {
  }
}
