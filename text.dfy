/**
 * String building blocks the log record is made of: appending items with a
 * separator that is only inserted after a non-empty text, the reference
 * join it is compared with, ASCII upper-casing and decimal rendering.
 */
module Text {

  import opened Wrappers

  /** `item` appended to `acc`, with `sep` in between only when `acc` is non-empty. */
  function Append(acc: string, sep: string, item: string): string {
    if acc == "" then item else acc + sep + item
  }

  /** The text obtained by appending every one of `items`, in order, to `acc`. */
  function Accumulate(acc: string, sep: string, items: seq<string>): string {
    if items == [] then acc
    else Append(Accumulate(acc, sep, items[..|items| - 1]), sep, items[|items| - 1])
  }

  /** Reference join: the items separated by `sep`, nothing before the first or after the last. */
  function Join(sep: string, items: seq<string>): (r: string)
    ensures items != [] ==> items[0] <= r
  {
    if items == [] then ""
    else if |items| == 1 then items[0]
    else items[0] + sep + Join(sep, items[1..])
  }

  predicate NoneEmpty(items: seq<string>) {
    forall i :: 0 <= i < |items| ==> items[i] != ""
  }

  /** `items` without its leading empty strings. */
  function DropLeadingEmpty(items: seq<string>): (r: seq<string>)
    ensures r != [] ==> r[0] != ""
    ensures |r| <= |items| && r == items[|items| - |r|..]
    ensures NoneEmpty(items) ==> r == items
  {
    if items == [] then []
    else if items[0] == "" then DropLeadingEmpty(items[1..])
    else items
  }

  lemma {:induction false} JoinSnoc(sep: string, items: seq<string>, x: string)
    requires items != []
    ensures Join(sep, items + [x]) == Join(sep, items) + sep + x
  {
    if |items| == 1 {
      assert (items + [x])[1..] == [x];
    } else {
      assert (items + [x])[1..] == items[1..] + [x];
      JoinSnoc(sep, items[1..], x);
    }
  }

  lemma {:induction false} DropLeadingEmptySnoc(items: seq<string>, x: string)
    ensures DropLeadingEmpty(items + [x]) ==
              if DropLeadingEmpty(items) != [] then DropLeadingEmpty(items) + [x]
              else if x == "" then [] else [x]
  {
    var all := items + [x];
    if items == [] {
      assert all == [x] && all[1..] == [];
    } else {
      assert all[0] == items[0];
      assert all[1..] == items[1..] + [x];
      if items[0] == "" {
        DropLeadingEmptySnoc(items[1..], x);
      }
    }
  }

  /**
   * Appending items one by one from the empty text joins them, except that
   * empty items met before the first non-empty one leave no trace; from a
   * non-empty start, `acc` is simply the first item of the join.
   */
  lemma {:induction false} AccumulateIsJoin(acc: string, sep: string, items: seq<string>)
    ensures Accumulate(acc, sep, items) ==
              Join(sep, if acc == "" then DropLeadingEmpty(items) else [acc] + items)
  {
    if items == [] {
    } else {
      var init, x := items[..|items| - 1], items[|items| - 1];
      assert items == init + [x];
      AccumulateIsJoin(acc, sep, init);
      var prefix := if acc == "" then DropLeadingEmpty(init) else [acc] + init;
      DropLeadingEmptySnoc(init, x);
      assert ([acc] + init) + [x] == [acc] + items;
      if prefix == [] {
        assert Accumulate(acc, sep, init) == "";
      } else {
        assert prefix[0] != "";
        assert Accumulate(acc, sep, init) != "";
        JoinSnoc(sep, prefix, x);
      }
    }
  }

  /** Over items that are all non-empty, appending one by one from "" is exactly the join. */
  lemma AccumulateNoneEmpty(sep: string, items: seq<string>)
    requires NoneEmpty(items)
    ensures Accumulate("", sep, items) == Join(sep, items)
  {
    AccumulateIsJoin("", sep, items);
  }

  /** Non-empty items always change the text they are appended to. */
  lemma AccumulateUnchanged(acc: string, sep: string, items: seq<string>)
    requires NoneEmpty(items)
    ensures Accumulate(acc, sep, items) == acc <==> items == []
  {
    AccumulateIsJoin(acc, sep, items);
    if items != [] {
      if acc == "" {
        assert items[0] <= Join(sep, items);
      } else {
        var all := [acc] + items;
        assert all[1..] == items;
        assert items[0] <= Join(sep, items);
        assert |Join(sep, all)| == |acc| + |sep| + |Join(sep, items)|;
      }
    }
  }

  /** ASCII upper-casing of one character (the invariant culture's rule for a-z). */
  function UpperChar(c: char): char {
    if 'a' <= c <= 'z' then (c as int - 'a' as int + 'A' as int) as char else c
  }

  /** ASCII upper-casing of a string, character by character. */
  function ToUpper(s: string): (r: string)
    ensures |r| == |s|
  {
    seq(|s|, i requires 0 <= i < |s| => UpperChar(s[i]))
  }

  function Digit(d: nat): (c: char)
    requires d < 10
    ensures '0' <= c <= '9'
  {
    "0123456789"[d]
  }

  predicate AllDigits(s: string) {
    forall i :: 0 <= i < |s| ==> '0' <= s[i] <= '9'
  }

  /** The value of a string of decimal digits. */
  function DigitsValue(s: string): nat
    requires AllDigits(s)
  {
    if s == [] then 0 else DigitsValue(s[..|s| - 1]) * 10 + (s[|s| - 1] as int - '0' as int)
  }

  /** Decimal rendering of a natural number, without leading zeros. */
  function NatToString(n: nat): (r: string)
    ensures r != [] && AllDigits(r)
    ensures |r| > 1 ==> r[0] != '0'
  {
    if n < 10 then [Digit(n)] else NatToString(n / 10) + [Digit(n % 10)]
  }

  lemma {:induction false} NatToStringValue(n: nat)
    ensures DigitsValue(NatToString(n)) == n
  {
    var r := NatToString(n);
    if n >= 10 {
      NatToStringValue(n / 10);
      assert r[..|r| - 1] == NatToString(n / 10);
    }
  }

  /** Decimal rendering of an integer, "-" before a negative one. */
  function IntToString(n: int): string {
    if n < 0 then "-" + NatToString(-n) else NatToString(n)
  }

  /** The integer a rendering stands for, or None when it is not one. */
  function ParseInt(s: string): Option<int> {
    if |s| > 1 && s[0] == '-' && AllDigits(s[1..]) then
      Some(0 - DigitsValue(s[1..]))
    else if s != [] && AllDigits(s) then
      Some(DigitsValue(s))
    else None
  }

  lemma IntToStringRoundTrip(n: int)
    ensures ParseInt(IntToString(n)) == Some(n)
  {
    var digits := NatToString(if n < 0 then -n else n);
    NatToStringValue(if n < 0 then -n else n);
    if n < 0 {
      var s := "-" + digits;
      assert s[1..] == digits;
    } else {
      assert digits[0] != '-';
    }
  }

  /** The rendering of a boolean: "True" or "False". */
  function BoolToString(b: bool): string {
    if b then "True" else "False"
  }
}
