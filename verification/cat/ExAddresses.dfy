/**
 EX menu addresses: an inventory of number triples, written in six, four or three
 digits, and the rules that make the writing a bijection.
 */
module ExAddresses {
  import opened Results
  import opened Wire

  type Uint16 = x: int | 0 <= x < 0x1_0000

  datatype Address = Address(p1: Uint16, p2: Uint16, p3: Uint16)

  datatype Form = FormUnset | Triple | Pair | Single | FormUndeclared

  datatype Item = Item(addr: Address, name: string, digits: Int64, text: bool)

  const MAX_COMPONENT: int := 99
  const MAX_COMPONENT_SINGLE_P1: int := 999
  const MAX_EX_DIGITS: int := 247

  function WireOf(form: Form, a: Address): (w: seq<Byte>)
    ensures AllDigits(w)
  {
    match form
    case Triple => Render(a.p1, 2) + Render(a.p2, 2) + Render(a.p3, 2)
    case Pair => Render(a.p1, 2) + Render(a.p2, 2)
    case Single => Render(a.p1, 3)
    case _ => []
  }

  /** The width of the address field, measured on the renderer. */
  function Width(form: Form): nat {
    |WireOf(form, Address(0, 0, 0))|
  }

  // ---- V8 and V12

  predicate ComponentsFit(form: Form, a: Address) {
    a.p1 <= (if form == Single then MAX_COMPONENT_SINGLE_P1 else MAX_COMPONENT)
    && a.p2 <= MAX_COMPONENT && a.p3 <= MAX_COMPONENT
  }

  predicate UniqueAddresses(items: seq<Item>) {
    forall i, j | 0 <= i < j < |items| :: items[i].addr != items[j].addr
  }

  predicate ValidItems(form: Form, items: seq<Item>) {
    && UniqueAddresses(items)
    && forall i | 0 <= i < |items| :: ComponentsFit(form, items[i].addr) && 1 <= items[i].digits <= MAX_EX_DIGITS
  }

  predicate DropsNothing(form: Form, a: Address) {
    match form
    case Triple => true
    case Pair => a.p3 == 0
    case Single => a.p2 == 0 && a.p3 == 0
    case _ => false
  }

  predicate ValidForm(form: Form, items: seq<Item>) {
    (form == Triple || form == Pair || form == Single)
    && forall i | 0 <= i < |items| :: DropsNothing(form, items[i].addr)
  }

  method ValidateItems(form: Form, items: seq<Item>) returns (ok: bool)
    ensures ok == ValidItems(form, items)
  {
    var seen: set<Address> := {};
    var i := 0;
    while i < |items|
      invariant 0 <= i <= |items|
      invariant seen == set k | 0 <= k < i :: items[k].addr
      invariant ValidItems(form, items[..i])
    {
      var it := items[i];
      if it.addr.p1 > (if form == Single then MAX_COMPONENT_SINGLE_P1 else MAX_COMPONENT)
         || it.addr.p2 > MAX_COMPONENT || it.addr.p3 > MAX_COMPONENT {
        return false;
      }
      if it.addr in seen {
        return false;
      }
      seen := seen + {it.addr};
      if it.digits < 1 || it.digits > MAX_EX_DIGITS {
        return false;
      }
      i := i + 1;
    }
    assert items[..i] == items;
    return true;
  }

  // ---- a dialect's own index

  predicate Member(items: seq<Item>, a: Address) {
    exists i | 0 <= i < |items| :: items[i].addr == a
  }

  method BuildMembers(items: seq<Item>) returns (members: set<Address>)
    ensures forall a :: a in members <==> Member(items, a)
  {
    members := {};
    var i := 0;
    while i < |items|
      invariant 0 <= i <= |items|
      invariant members == set k | 0 <= k < i :: items[k].addr
    {
      members := members + {items[i].addr};
      i := i + 1;
    }
  }

  method BuildByTriple(items: seq<Item>) returns (m: map<(int, int, int), Address>)
    ensures forall p1, p2, p3 :: Lookup(items, p1, p2, p3) == if (p1, p2, p3) in m then Some(m[(p1, p2, p3)]) else None
  {
    m := map[];
    var i := 0;
    while i < |items|
      invariant 0 <= i <= |items|
      invariant forall t | t in m ::
                  m[t] == Address(m[t].p1, m[t].p2, m[t].p3) && t == (m[t].p1 as int, m[t].p2 as int, m[t].p3 as int)
      invariant forall t | t in m :: Member(items, m[t])
      invariant forall k | 0 <= k < i ::
                  (items[k].addr.p1 as int, items[k].addr.p2 as int, items[k].addr.p3 as int) in m
    {
      var a := items[i].addr;
      m := m[(a.p1 as int, a.p2 as int, a.p3 as int) := a];
      i := i + 1;
    }
  }

  /** NewEXAddress: membership only, no numeric range. */
  function Lookup(items: seq<Item>, p1: int, p2: int, p3: int): Option<Address> {
    if 0 <= p1 < 0x1_0000 && 0 <= p2 < 0x1_0000 && 0 <= p3 < 0x1_0000 && Member(items, Address(p1, p2, p3))
    then Some(Address(p1, p2, p3)) else None
  }

  function Parse(form: Form, items: seq<Item>, wire: seq<Byte>): Option<Address> {
    match form
    case Triple =>
      if |wire| != 6 || !AllDigits(wire) then None
      else Lookup(items, DecimalValue(wire[0..2]), DecimalValue(wire[2..4]), DecimalValue(wire[4..6]))
    case Pair =>
      if |wire| != 4 || !AllDigits(wire) then None
      else Lookup(items, DecimalValue(wire[0..2]), DecimalValue(wire[2..4]), 0)
    case Single =>
      if |wire| != 3 || !AllDigits(wire) then None
      else Lookup(items, DecimalValue(wire[0..3]), 0, 0)
    case _ => None
  }

  // ---- the bijection

  /** A component within its bound takes exactly its digits and reads back. */
  lemma Component(n: nat, width: nat)
    requires (width == 2 && n <= MAX_COMPONENT) || (width == 3 && n <= MAX_COMPONENT_SINGLE_P1)
    ensures |Render(n, width)| == width && DecimalValue(Render(n, width)) == n
  {
    PowersOfTen();
    RenderWidth(n, width);
    RenderReadsBack(n, width);
  }

  lemma Widths()
    ensures Width(Triple) == 6 && Width(Pair) == 4 && Width(Single) == 3 && Width(FormUnset) == 0
  {
    Component(0, 2);
    Component(0, 3);
  }

  /** Every member fills the address field exactly, and parses back to itself. */
  lemma RenderThenParse(form: Form, items: seq<Item>, a: Address)
    requires ComponentsFit(form, a) && ValidForm(form, items) && Member(items, a)
    ensures |WireOf(form, a)| == Width(form) && Parse(form, items, WireOf(form, a)) == Some(a)
  {
    Widths();
    var w := WireOf(form, a);
    match form
    case Triple =>
      Component(a.p1, 2);
      Component(a.p2, 2);
      Component(a.p3, 2);
      assert w[0..2] == Render(a.p1, 2) && w[2..4] == Render(a.p2, 2) && w[4..6] == Render(a.p3, 2);
    case Pair =>
      Component(a.p1, 2);
      Component(a.p2, 2);
      assert w[0..2] == Render(a.p1, 2) && w[2..4] == Render(a.p2, 2);
    case Single =>
      Component(a.p1, 3);
      assert w[0..3] == w;
  }

  lemma FieldRenders(wire: seq<Byte>, from: nat, to: nat)
    requires AllDigits(wire) && from < to <= |wire|
    ensures AllDigits(wire[from..to]) && Render(DecimalValue(wire[from..to]), to - from) == wire[from..to]
  {
    ValueRendersBack(wire[from..to]);
  }

  lemma TripleRenders(items: seq<Item>, wire: seq<Byte>)
    requires Parse(Triple, items, wire).Some?
    ensures WireOf(Triple, Parse(Triple, items, wire).value) == wire
  {
    FieldRenders(wire, 0, 2);
    FieldRenders(wire, 2, 4);
    FieldRenders(wire, 4, 6);
    assert wire == wire[0..2] + wire[2..4] + wire[4..6];
  }

  lemma PairRenders(items: seq<Item>, wire: seq<Byte>)
    requires Parse(Pair, items, wire).Some?
    ensures WireOf(Pair, Parse(Pair, items, wire).value) == wire
  {
    FieldRenders(wire, 0, 2);
    FieldRenders(wire, 2, 4);
    assert wire == wire[0..2] + wire[2..4];
  }

  lemma SingleRenders(items: seq<Item>, wire: seq<Byte>)
    requires Parse(Single, items, wire).Some?
    ensures WireOf(Single, Parse(Single, items, wire).value) == wire
  {
    FieldRenders(wire, 0, 3);
    assert wire == wire[0..3];
  }

  /** What parses is a member, and renders back to the very field it came from. */
  lemma ParseThenRender(form: Form, items: seq<Item>, wire: seq<Byte>)
    requires Parse(form, items, wire).Some?
    ensures Member(items, Parse(form, items, wire).value)
    ensures WireOf(form, Parse(form, items, wire).value) == wire
  {
    match form
    case Triple => TripleRenders(items, wire);
    case Pair => PairRenders(items, wire);
    case Single => SingleRenders(items, wire);
  }

  lemma ComponentWidth(n: nat)
    ensures |Render(n, 2)| >= 2 && |Render(n, 3)| >= 3
    ensures |Render(n, 2)| == 2 <==> n <= MAX_COMPONENT
    ensures |Render(n, 3)| == 3 <==> n <= MAX_COMPONENT_SINGLE_P1
  {
    PowersOfTen();
    RenderWidth(n, 2);
    RenderWidth(n, 3);
  }

  lemma ParsedIsWritten(form: Form, items: seq<Item>, wire: seq<Byte>)
    requires Parse(form, items, wire).Some?
    ensures DropsNothing(form, Parse(form, items, wire).value)
  {
  }

  /** For any form and member at all: it survives if and only if the form writes all of it, each part in its digits. */
  lemma SurvivesExactly(form: Form, items: seq<Item>, a: Address)
    requires Member(items, a)
    ensures Parse(form, items, WireOf(form, a)) == Some(a) <==> DropsNothing(form, a) && ComponentsFit(form, a)
  {
    ComponentWidth(a.p1);
    ComponentWidth(a.p2);
    ComponentWidth(a.p3);
    if DropsNothing(form, a) && ComponentsFit(form, a) {
      assert ValidForm(form, [Item(a, "", 1, false)]);
      var one := [Item(a, "", 1, false)];
      assert one[0].addr == a;
      RenderThenParse(form, one, a);
    } else if Parse(form, items, WireOf(form, a)) == Some(a) {
      ParsedIsWritten(form, items, WireOf(form, a));
    }
  }

  /** Of the members V12 accepts, exactly those within V8's bounds survive being rendered and parsed. */
  lemma BoundIsExact(form: Form, items: seq<Item>, a: Address)
    requires ValidForm(form, items) && Member(items, a)
    ensures Parse(form, items, WireOf(form, a)) == Some(a) <==> ComponentsFit(form, a)
  {
    ComponentWidth(a.p1);
    ComponentWidth(a.p2);
    ComponentWidth(a.p3);
    if ComponentsFit(form, a) {
      RenderThenParse(form, items, a);
    }
  }
}
