/**
 Filter specifications: the identity, display name, display colour and
 `edited` flag of one line of the charts. A line is a user filter, the
 catch-all line (points no filter matches) or the everything line.
 */
module FilterSpec {

  /** The UID of a user filter. */
  datatype FilterUid = FilterUid(id: nat)

  /** The identity of a chart line. */
  datatype LineUid = Filter(uid: FilterUid) | CatchAll | Everything

  newtype byte = x: int | 0 <= x < 256

  /** An RGB colour. */
  datatype Color = Color(r: byte, g: byte, b: byte)

  const CatchAllName: string := "catch all"
  const EverythingName: string := "everything"
  const CatchAllColor: Color := Color(0x01, 0x93, 0xff)
  const EverythingColor: Color := Color(0xff, 0x66, 0x00)

  // Decimal rendering of a UID, as `format!("{}", uid)` writes it.

  predicate IsDigit(c: char) {
    '0' <= c <= '9'
  }

  predicate AllDigits(s: string) {
    forall i :: 0 <= i < |s| ==> IsDigit(s[i])
  }

  function DigitChar(d: nat): (c: char)
    requires d < 10
    ensures IsDigit(c)
  {
    ('0' as int + d) as char
  }

  function DigitValue(c: char): (d: nat)
    requires IsDigit(c)
    ensures d < 10 && DigitChar(d) == c
  {
    c as int - '0' as int
  }

  /** The decimal digits of `n`, most significant first, without leading zeros. */
  function ShowNat(n: nat): (s: string)
    ensures |s| >= 1 && AllDigits(s)
    ensures |s| > 1 ==> s[0] != '0'
    decreases n
  {
    if n < 10 then [DigitChar(n)] else ShowNat(n / 10) + [DigitChar(n % 10)]
  }

  /** Reads a string of decimal digits back as a number. */
  function ParseNat(s: string): (n: nat)
    requires AllDigits(s)
    decreases |s|
  {
    if s == [] then 0 else 10 * ParseNat(s[..|s| - 1]) + DigitValue(s[|s| - 1])
  }

  lemma {:induction false} ParseShowNat(n: nat)
    ensures ParseNat(ShowNat(n)) == n
    decreases n
  {
    var s := ShowNat(n);
    if n >= 10 {
      ParseShowNat(n / 10);
      assert s[..|s| - 1] == ShowNat(n / 10);
    }
  }

  /** Distinct numbers never render the same. */
  lemma ShowNatInjective(a: nat, b: nat)
    ensures ShowNat(a) == ShowNat(b) <==> a == b
  {
    if ShowNat(a) == ShowNat(b) {
      ParseShowNat(a);
      ParseShowNat(b);
    }
  }

  /** The name `new` gives a user filter: `filter <uid>`. */
  function DefaultName(u: FilterUid): (s: string)
    ensures |s| > 7 && s[..7] == "filter " && s[7..] == ShowNat(u.id)
  {
    "filter " + ShowNat(u.id)
  }

  /** Distinct user filters get distinct default names, and no default name
      is the name of the catch-all or the everything line. */
  lemma DefaultNameDistinct(u1: FilterUid, u2: FilterUid)
    ensures DefaultName(u1) == DefaultName(u2) <==> u1 == u2
    ensures DefaultName(u1) != CatchAllName && DefaultName(u1) != EverythingName
  {
    if DefaultName(u1) == DefaultName(u2) {
      ShowNatInjective(u1.id, u2.id);
    }
    assert DefaultName(u1)[0] == 'f';
  }

  /** The source of fresh filter UIDs: a counter, and the set of UIDs handed
      out so far. */
  class FilterUidGen {
    var next: nat
    ghost var issued: set<FilterUid>

    ghost predicate Valid()
      reads this
    {
      forall u :: u in issued ==> u.id < next
    }

    constructor ()
      ensures Valid() && next == 0 && issued == {}
    {
      next := 0;
      issued := {};
    }

    /** `FilterUid::fresh`: a UID never handed out before. */
    method Fresh() returns (u: FilterUid)
      requires Valid()
      modifies this
      ensures Valid()
      ensures u !in old(issued) && issued == old(issued) + {u}
      ensures u.id == old(next) && next == old(next) + 1
    {
      u := FilterUid(next);
      next := next + 1;
      issued := issued + {u};
    }
  }

  /** A filter specification. The accessors `uid`, `name`, `color` and `edited`
      of the source are reads of the fields of the same names. */
  class Spec {
    var uid: LineUid
    var name: string
    var color: Color
    var edited: bool

    /** `new`: a user filter with a fresh UID, its default name and the given colour. */
    constructor New(gen: FilterUidGen, c: Color)
      requires gen.Valid()
      modifies gen
      ensures gen.Valid() && gen.next == old(gen.next) + 1
      ensures uid.Filter? && uid.uid !in old(gen.issued) && gen.issued == old(gen.issued) + {uid.uid}
      ensures uid == Filter(FilterUid(old(gen.next)))
      ensures name == DefaultName(uid.uid)
      ensures color == c && !edited
    {
      var u := gen.Fresh();
      uid := Filter(u);
      name := DefaultName(u);
      color := c;
      edited := false;
    }

    /** `new_catch_all`. */
    constructor NewCatchAll()
      ensures uid == CatchAll && name == CatchAllName && color == CatchAllColor && !edited
    {
      uid := CatchAll;
      name := CatchAllName;
      color := CatchAllColor;
      edited := false;
    }

    /** `new_everything`. */
    constructor NewEverything()
      ensures uid == Everything && name == EverythingName && color == EverythingColor && !edited
    {
      uid := Everything;
      name := EverythingName;
      color := EverythingColor;
      edited := false;
    }

    /** `set_edited`: raises the flag, whatever it was. */
    method SetEdited()
      modifies this`edited
      ensures edited
      ensures uid == old(uid) && name == old(name) && color == old(color)
    {
      edited := true;
    }

    /** `unset_edited`: lowers the flag, whatever it was. */
    method UnsetEdited()
      modifies this`edited
      ensures !edited
      ensures uid == old(uid) && name == old(name) && color == old(color)
    {
      edited := false;
    }

    /** `set_name`. */
    method SetName(s: string)
      modifies this`name
      ensures name == s
      ensures uid == old(uid) && color == old(color) && edited == old(edited)
    {
      name := s;
    }

    /** `set_color`. */
    method SetColor(c: Color)
      modifies this`color
      ensures color == c
      ensures uid == old(uid) && name == old(name) && edited == old(edited)
    {
      color := c;
    }
  }

  /** Two successive `new` calls give two user filters with distinct UIDs and
      distinct default names. */
  method NewTwice(gen: FilterUidGen, c1: Color, c2: Color) returns (s1: Spec, s2: Spec)
    requires gen.Valid()
    modifies gen
    ensures gen.Valid()
    ensures s1.uid.Filter? && s2.uid.Filter? && s1.uid != s2.uid
    ensures s1.name != s2.name
    ensures s1.color == c1 && s2.color == c2
  {
    s1 := new Spec.New(gen, c1);
    s2 := new Spec.New(gen, c2);
    DefaultNameDistinct(s1.uid.uid, s2.uid.uid);
  }
}
