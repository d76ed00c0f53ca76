/**
 * Line-item intake of invoice generation: the four submitted lists are
 * zipped by position, positions with an empty name, quantity or price are
 * skipped, and each kept position is converted into a detail draft whose
 * `order` is its position.
 */
module Intake {
  import opened Strings

  /** One position of the four submitted lists. */
  datatype LineInput = LineInput(index: nat, name: string, quantity: string, price: string, amount: string)

  function Min(a: nat, b: nat): nat {
    if a <= b then a else b
  }

  function ZipLength(names: seq<string>, quantities: seq<string>, prices: seq<string>, amounts: seq<string>): nat {
    Min(Min(|names|, |quantities|), Min(|prices|, |amounts|))
  }

  /** `enumerate(zip(names, quantities, prices, amounts))`: stops at the shortest list. */
  function Zip4(names: seq<string>, quantities: seq<string>, prices: seq<string>, amounts: seq<string>): (r: seq<LineInput>)
    ensures |r| <= |names| && |r| <= |quantities| && |r| <= |prices| && |r| <= |amounts|
    ensures |r| == |names| || |r| == |quantities| || |r| == |prices| || |r| == |amounts|
    ensures forall i :: 0 <= i < |r| ==>
      r[i].index == i && r[i].name == names[i] && r[i].quantity == quantities[i]
      && r[i].price == prices[i] && r[i].amount == amounts[i]
  {
    var n := ZipLength(names, quantities, prices, amounts);
    seq(n, i requires 0 <= i < n => LineInput(i, names[i], quantities[i], prices[i], amounts[i]))
  }

  /** `if name and qty and price`: the three fields are non-empty strings. */
  predicate IsComplete(l: LineInput) {
    l.name != [] && l.quantity != [] && l.price != []
  }

  /** The positions that get a detail, in their original order. */
  function KeptLines(lines: seq<LineInput>): seq<LineInput> {
    if lines == [] then []
    else
      var last := lines[|lines| - 1];
      KeptLines(lines[..|lines| - 1]) + (if IsComplete(last) then [last] else [])
  }

  predicate IndicesIncreasing(lines: seq<LineInput>) {
    forall i, j :: 0 <= i < j < |lines| ==> lines[i].index < lines[j].index
  }

  /** The kept lines are exactly the complete ones, and never more than the input. */
  lemma {:induction false} KeptLinesMembers(lines: seq<LineInput>)
    ensures |KeptLines(lines)| <= |lines|
    ensures forall l :: l in KeptLines(lines) <==> l in lines && IsComplete(l)
  {
    if lines != [] {
      var init := lines[..|lines| - 1];
      assert lines == init + [lines[|lines| - 1]];
      KeptLinesMembers(init);
    }
  }

  /** Every kept line comes from a position no later than the input's last. */
  lemma {:induction false} KeptLinesIndexBound(lines: seq<LineInput>)
    requires IndicesIncreasing(lines)
    ensures forall l :: l in KeptLines(lines) ==> l.index <= lines[|lines| - 1].index
  {
    KeptLinesMembers(lines);
    forall l | l in KeptLines(lines)
      ensures l.index <= lines[|lines| - 1].index
    {
      var i :| 0 <= i < |lines| && lines[i] == l;
    }
  }

  /** Skipping lines keeps the indices increasing. */
  lemma {:induction false} KeptLinesIncreasing(lines: seq<LineInput>)
    requires IndicesIncreasing(lines)
    ensures IndicesIncreasing(KeptLines(lines))
  {
    if lines != [] {
      var init := lines[..|lines| - 1];
      var last := lines[|lines| - 1];
      assert IndicesIncreasing(init);
      KeptLinesIncreasing(init);
      if init != [] {
        KeptLinesIndexBound(init);
        assert init[|init| - 1].index < last.index;
      }
      var k := KeptLines(init);
      assert forall j :: 0 <= j < |k| ==> k[j] in k;
    }
  }

  /** What intake keeps from the submitted lists. */
  lemma ZippedKeptLines(names: seq<string>, quantities: seq<string>, prices: seq<string>, amounts: seq<string>)
    ensures var n := ZipLength(names, quantities, prices, amounts);
            var kept := KeptLines(Zip4(names, quantities, prices, amounts));
            && |kept| <= n
            && n <= |names| && n <= |quantities| && n <= |prices| && n <= |amounts|
            && IndicesIncreasing(kept)
            && (forall j :: 0 <= j < |kept| ==>
                  var i := kept[j].index;
                  && i < n
                  && kept[j] == LineInput(i, names[i], quantities[i], prices[i], amounts[i])
                  && IsComplete(kept[j]))
            && (forall i :: 0 <= i < n && names[i] != [] && quantities[i] != [] && prices[i] != [] ==>
                  LineInput(i, names[i], quantities[i], prices[i], amounts[i]) in kept)
  {
    var lines := Zip4(names, quantities, prices, amounts);
    KeptLinesMembers(lines);
    KeptLinesIncreasing(lines);
    var kept := KeptLines(lines);
    forall j | 0 <= j < |kept|
      ensures kept[j].index < |lines| && kept[j] == lines[kept[j].index]
    {
      assert kept[j] in lines;
    }
    forall i | 0 <= i < |lines| && names[i] != [] && quantities[i] != [] && prices[i] != []
      ensures lines[i] in kept
    {
      assert lines[i] in lines;
    }
  }

  /** With no amount list submitted the zip is empty, so no detail is created. */
  lemma NoAmountsNoLines(names: seq<string>, quantities: seq<string>, prices: seq<string>)
    ensures KeptLines(Zip4(names, quantities, prices, [])) == []
  {
  }

  /** A detail before it is stored: the caller's amount is still the one submitted. */
  datatype Draft = Draft(name: string, quantity: int, unitPrice: int, suppliedAmount: int, order: nat)

  /**
   * The conversions `int(qty)`, `float(price)` and, when an amount was
   * submitted, `float(amount)`; `None` where one of them raises.
   */
  function ParseLine(l: LineInput): (r: Option<Draft>)
    ensures r.Some? <==>
      && ParseInt(l.quantity).Some? && ParseCents(l.price).Some?
      && (l.amount == [] || ParseCents(l.amount).Some?)
    ensures r.Some? ==>
      && r.value.name == l.name && r.value.order == l.index
      && Some(r.value.quantity) == ParseInt(l.quantity)
      && Some(r.value.unitPrice) == ParseCents(l.price)
      && r.value.suppliedAmount
           == if l.amount == [] then r.value.quantity * r.value.unitPrice else ParseCents(l.amount).value
  {
    match ParseInt(l.quantity)
    case None => None
    case Some(q) =>
      match ParseCents(l.price)
      case None => None
      case Some(p) =>
        if l.amount == [] then Some(Draft(l.name, q, p, q * p, l.index))
        else
          match ParseCents(l.amount)
          case None => None
          case Some(a) => Some(Draft(l.name, q, p, a, l.index))
  }

  /**
   * The drafts made before intake stops: the loop converts the kept lines in
   * order and stops at the first one whose conversion raises.
   */
  function ParsedPrefix(lines: seq<LineInput>): (r: seq<Draft>)
    ensures |r| <= |lines|
  {
    if lines == [] then []
    else
      match ParseLine(lines[0])
      case None => []
      case Some(d) => [d] + ParsedPrefix(lines[1..])
  }

  /** The drafts are the conversions of the first lines, and the line after them does not convert. */
  lemma {:induction false} ParsedPrefixSpec(lines: seq<LineInput>)
    ensures forall j :: 0 <= j < |ParsedPrefix(lines)| ==> ParseLine(lines[j]) == Some(ParsedPrefix(lines)[j])
    ensures |ParsedPrefix(lines)| < |lines| ==> ParseLine(lines[|ParsedPrefix(lines)|]).None?
  {
    if lines != [] && ParseLine(lines[0]).Some? {
      ParsedPrefixSpec(lines[1..]);
    }
  }

  /** Intake gets through every kept line. */
  predicate AllParse(lines: seq<LineInput>) {
    |ParsedPrefix(lines)| == |lines|
  }

  /** Intake gets through all lines exactly when every one of them converts. */
  lemma ParsedPrefixComplete(lines: seq<LineInput>)
    ensures AllParse(lines) <==> forall j :: 0 <= j < |lines| ==> ParseLine(lines[j]).Some?
  {
    ParsedPrefixSpec(lines);
  }

  lemma {:induction false} KeptLinesConcat(a: seq<LineInput>, b: seq<LineInput>)
    ensures KeptLines(a + b) == KeptLines(a) + KeptLines(b)
  {
    if b == [] {
      assert a + b == a;
    } else {
      assert (a + b)[..|a + b| - 1] == a + b[..|b| - 1];
      KeptLinesConcat(a, b[..|b| - 1]);
    }
  }

  /** A line that converts extends the drafts by its own draft. */
  lemma {:induction false} ParsedPrefixExtend(a: seq<LineInput>, l: LineInput)
    requires AllParse(a)
    requires ParseLine(l).Some?
    ensures AllParse(a + [l])
    ensures ParsedPrefix(a + [l]) == ParsedPrefix(a) + [ParseLine(l).value]
  {
    if a != [] {
      assert (a + [l])[1..] == a[1..] + [l];
      ParsedPrefixExtend(a[1..], l);
    }
  }

  /** A line that does not convert ends intake: nothing after it is converted. */
  lemma {:induction false} ParsedPrefixStops(a: seq<LineInput>, l: LineInput, b: seq<LineInput>)
    requires AllParse(a)
    requires ParseLine(l).None?
    ensures !AllParse(a + [l] + b)
    ensures ParsedPrefix(a + [l] + b) == ParsedPrefix(a)
  {
    assert (a + [l] + b)[|a|] == l;
    if a != [] {
      assert (a + [l] + b)[1..] == a[1..] + [l] + b;
      ParsedPrefixStops(a[1..], l, b);
    } else {
      assert a + [l] + b == [l] + b;
    }
  }

  lemma KeptLinesSplit(lines: seq<LineInput>, k: nat)
    requires k <= |lines|
    ensures KeptLines(lines) == KeptLines(lines[..k]) + KeptLines(lines[k..])
  {
    assert lines == lines[..k] + lines[k..];
    KeptLinesConcat(lines[..k], lines[k..]);
  }

  /** The lines kept among the first `i + 1` positions. */
  lemma KeptLinesStep(lines: seq<LineInput>, i: nat)
    requires i < |lines|
    ensures KeptLines(lines[..i + 1]) == KeptLines(lines[..i]) + (if IsComplete(lines[i]) then [lines[i]] else [])
  {
    assert lines[..i + 1][..i] == lines[..i];
  }

  /** One more position of the zipped lists: kept if complete, and converted if all before it were. */
  lemma IntakeStep(lines: seq<LineInput>, i: nat)
    requires i < |lines|
    requires AllParse(KeptLines(lines[..i]))
    ensures !IsComplete(lines[i]) ==>
      && KeptLines(lines[..i + 1]) == KeptLines(lines[..i])
      && AllParse(KeptLines(lines[..i + 1]))
      && ParsedPrefix(KeptLines(lines[..i + 1])) == ParsedPrefix(KeptLines(lines[..i]))
    ensures IsComplete(lines[i]) && ParseLine(lines[i]).Some? ==>
      && AllParse(KeptLines(lines[..i + 1]))
      && ParsedPrefix(KeptLines(lines[..i + 1])) == ParsedPrefix(KeptLines(lines[..i])) + [ParseLine(lines[i]).value]
    ensures IsComplete(lines[i]) && ParseLine(lines[i]).None? ==>
      && !AllParse(KeptLines(lines))
      && ParsedPrefix(KeptLines(lines)) == ParsedPrefix(KeptLines(lines[..i]))
  {
    var line := lines[i];
    KeptLinesStep(lines, i);
    if IsComplete(line) {
      if ParseLine(line).Some? {
        ParsedPrefixExtend(KeptLines(lines[..i]), line);
      } else {
        IntakeStop(lines, i);
      }
    }
  }

  lemma IntakeStop(lines: seq<LineInput>, i: nat)
    requires i < |lines|
    requires AllParse(KeptLines(lines[..i]))
    requires IsComplete(lines[i]) && ParseLine(lines[i]).None?
    ensures !AllParse(KeptLines(lines))
    ensures ParsedPrefix(KeptLines(lines)) == ParsedPrefix(KeptLines(lines[..i]))
  {
    KeptLinesSplit(lines, i + 1);
    KeptLinesStep(lines, i);
    ParsedPrefixStops(KeptLines(lines[..i]), lines[i], KeptLines(lines[i + 1..]));
  }

  /** Names A and B, quantities 2 and "", prices 5 and 10: only A is kept, as quantity 2 at 500 cents. */
  lemma IntakeExample()
    ensures KeptLines(Zip4(["A", "B"], ["2", ""], ["5", "10"], ["", ""])) == [LineInput(0, "A", "2", "5", "")]
    ensures ParseLine(LineInput(0, "A", "2", "5", "")) == Some(Draft("A", 2, 500, 1000, 0))
  {
    var lines := Zip4(["A", "B"], ["2", ""], ["5", "10"], ["", ""]);
    assert lines == [LineInput(0, "A", "2", "5", ""), LineInput(1, "B", "", "10", "")];
    assert lines[..1] == [LineInput(0, "A", "2", "5", "")];
    assert lines[..1][..0] == [];
    assert DigitsValue("2") == 2 by {
      assert "2"[..0] == [];
    }
    assert DigitsValue("5") == 5 by {
      assert "5"[..0] == [];
    }
    assert Find("5", '.') == 1;
  }
}
