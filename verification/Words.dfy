/** The words that the adventure understands, spelled out. */
module Words {
  import opened Options
  import opened WorldData
  import opened WorldState

  /** The word, which is given in small letters, has been typed in letters of either case. */
  predicate Says(arg: string, word: string) {
    && |arg| == |word|
    && forall i :: 0 <= i < |word| ==>
         arg[i] == word[i] || ('a' <= word[i] <= 'z' && arg[i] as int == word[i] as int - 32)
  }

  predicate Small(word: string) {
    forall i :: 0 <= i < |word| ==> !('A' <= word[i] <= 'Z')
  }

  /** Words are compared without regard to the case of letters. */
  lemma SaysExactly(arg: string, word: string)
    requires Small(word)
    ensures SameWord(word, arg) <==> Says(arg, word)
    ensures SameWord(arg, word) <==> Says(arg, word)
  {
    if SameWord(word, arg) {
      assert forall i :: 0 <= i < |word| ==> Lower(word)[i] == Lower(arg)[i];
    }
    if Says(arg, word) {
      assert forall i :: 0 <= i < |word| ==> Lower(word)[i] == Lower(arg)[i];
    }
  }

  /** What the objects are called. */
  function NameInFull(o: ObjId): string {
    if o == O_GPS_BAD || o == O_GPS_GOOD then "gps"
    else if o == O_ROBOT_DEAD || o == O_ROBOT_LIVE then "robot"
    else if o == O_BATT_EMPTY || o == O_BATT_FULL || o == O_BATT_CAR then "battery"
    else if o == O_BOOK_C || o == O_BOOK_WODE then "book"
    else if o == O_BUNNYSUIT then "bunnysuit"
    else if o == O_CAR_KEY then "key"
    else if o == O_FISH then "fish"
    else if o == O_ICARD then "icard"
    else if o == O_MIMO_CARD then "mimo"
    else if o == O_GPS_SPEC then "spec"
    else if o == O_MP2 then "mp2"
    else if o == O_MTN_DEW then "dew"
    else if o == O_TUX then "tux"
    else if o == O_JETPACK then "jetpack"
    else "board"
  }

  /** The word is the name of the object. */
  predicate Names(arg: string, o: ObjId) {
    Says(arg, NameInFull(o))
  }

  lemma NamesAreSmall(o: ObjId)
    ensures Small(NameInFull(o))
  {
  }

  lemma SameName(o: ObjId)
    ensures Lower(NameOf(o)) == Lower(NameInFull(o))
  {
  }

  lemma NamesExactly(arg: string, o: ObjId)
    ensures SameWord(arg, NameOf(o)) <==> Names(arg, o)
  {
    NamesAreSmall(o);
    SameName(o);
    SaysExactly(arg, NameInFull(o));
  }

  /** The object is the first of the list that has this name. */
  ghost predicate FirstNamed(list: seq<ObjId>, arg: string, o: ObjId) {
    exists k :: 0 <= k < |list| && list[k] == o && Names(arg, o) && forall j :: 0 <= j < k ==> !Names(arg, list[j])
  }

  lemma {:induction false} FoundExactly(list: seq<ObjId>, arg: string, o: ObjId)
    ensures FindByName(list, arg) == Some(o) <==> FirstNamed(list, arg, o)
  {
    if list != [] {
      NamesExactly(arg, list[0]);
      FoundExactly(list[1..], arg, o);
      if FirstNamed(list, arg, o) && !Names(arg, list[0]) {
        var k :| 0 <= k < |list| && list[k] == o && Names(arg, o) && forall j :: 0 <= j < k ==> !Names(arg, list[j]);
        assert list[1..][k - 1] == o && forall j :: 0 <= j < k - 1 ==> list[1..][j] == list[j + 1];
      }
      if FirstNamed(list[1..], arg, o) && !Names(arg, list[0]) {
        FirstInRest(list, arg, o);
      }
    }
  }

  lemma FirstInRest(list: seq<ObjId>, arg: string, o: ObjId)
    requires list != [] && FirstNamed(list[1..], arg, o) && !Names(arg, list[0])
    ensures FirstNamed(list, arg, o)
  {
    var k :| 0 <= k < |list[1..]| && list[1..][k] == o && Names(arg, o) && forall j :: 0 <= j < k ==> !Names(arg, list[1..][j]);
    assert list[k + 1] == o;
    forall j | 0 <= j < k + 1
      ensures !Names(arg, list[j])
    {
      if j > 0 {
        assert list[1..][j - 1] == list[j];
      }
    }
  }
}
