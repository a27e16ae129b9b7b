/** The key of a demand stream and the string under which the stream is looked up. */
module DemandStreamKey {
  import opened RandomGeneration

  datatype DemandStreamKey = DemandStreamKey(origin: string, destination: string, date: int, cabin: string)

  function ToString(lib: Library, key: DemandStreamKey): string {
    key.origin + "-" + key.destination + " " + lib.dateText(key.date) + " " + key.cabin
  }

  /** Airport codes have three characters: the grammar of the demand file says so. */
  predicate HasAirportCodes(key: DemandStreamKey) {
    |key.origin| == 3 && |key.destination| == 3
  }

  lemma AppendCancels<T>(a: seq<T>, b: seq<T>, c: seq<T>, d: seq<T>)
    requires |a| == |c| && a + b == c + d
    ensures a == c && b == d
  {
    assert a == (a + b)[..|a|] && b == (a + b)[|a|..];
    assert c == (c + d)[..|c|] && d == (c + d)[|c|..];
  }

  /** What the grammar of the demand file makes of a key. */
  predicate IsKey(key: DemandStreamKey) {
    HasAirportCodes(key) && IsDate(key.date)
  }

  /** With three-letter airports the string determines the whole key. */
  lemma ToStringIsInjective(lib: Library, a: DemandStreamKey, b: DemandStreamKey)
    requires HasDateTexts(lib) && IsKey(a) && IsKey(b)
    ensures ToString(lib, a) == ToString(lib, b) <==> a == b
  {
    if ToString(lib, a) == ToString(lib, b) {
      var da, db := lib.dateText(a.date), lib.dateText(b.date);
      var ta, tb := da + " " + a.cabin, db + " " + b.cabin;
      var headA, headB := a.origin + "-" + a.destination + " ", b.origin + "-" + b.destination + " ";
      assert ToString(lib, a) == headA + ta && ToString(lib, b) == headB + tb;
      AppendCancels(headA, ta, headB, tb);
      assert headA == a.origin + ("-" + a.destination + " ") && headB == b.origin + ("-" + b.destination + " ");
      AppendCancels(a.origin, "-" + a.destination + " ", b.origin, "-" + b.destination + " ");
      assert "-" + a.destination + " " == "-" + (a.destination + " ");
      assert "-" + b.destination + " " == "-" + (b.destination + " ");
      AppendCancels("-", a.destination + " ", "-", b.destination + " ");
      AppendCancels(a.destination, " ", b.destination, " ");
      assert ta == da + (" " + a.cabin) && tb == db + (" " + b.cabin);
      AppendCancels(da, " " + a.cabin, db, " " + b.cabin);
      AppendCancels(" ", a.cabin, " ", b.cabin);
    }
  }

  /** Each part of the key is at its own place of the string. */
  lemma ToStringParts(lib: Library, key: DemandStreamKey)
    requires HasDateTexts(lib) && IsKey(key)
    ensures var s := ToString(lib, key);
            && |s| == 20 + |key.cabin|
            && s[..3] == key.origin && s[4..7] == key.destination && s[8..19] == lib.dateText(key.date)
            && s[20..] == key.cabin
            && s[3] == '-' && s[7] == ' ' && s[19] == ' '
  {
  }

  /** Without airports of equal length two streams can share a string. */
  lemma ToStringCanCollide(lib: Library, date: int, cabin: string)
    ensures ToString(lib, DemandStreamKey("A-B", "C", date, cabin))
            == ToString(lib, DemandStreamKey("A", "B-C", date, cabin))
  {
    assert "A-B" + "-" + "C" == "A" + "-" + "B-C";
  }
}
