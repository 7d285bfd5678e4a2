/** CSI list pagination by decimal offset tokens. */
module Pagination {
  import opened Options

  const MAX_INT := 0x7FFF_FFFF_FFFF_FFFF

  // ---- decimal numbers -----------------------------------------------------

  predicate IsDigit(c: char) { '0' <= c <= '9' }

  function DigitValue(c: char): (d: nat)
    requires IsDigit(c)
    ensures d <= 9
  {
    c as int - '0' as int
  }

  function Digit(d: nat): (c: char)
    requires d <= 9
    ensures IsDigit(c) && DigitValue(c) == d
  {
    ('0' as int + d) as char
  }

  function Itoa(n: nat): (s: string)
    ensures s != "" && forall i | 0 <= i < |s| :: IsDigit(s[i])
  {
    if n < 10 then [Digit(n)] else Itoa(n / 10) + [Digit(n % 10)]
  }

  function Value(s: string): nat
    requires forall i | 0 <= i < |s| :: IsDigit(s[i])
  {
    if s == "" then 0 else Value(s[..|s| - 1]) * 10 + DigitValue(s[|s| - 1])
  }

  predicate AllDigits(s: string) { s != "" && forall i | 0 <= i < |s| :: IsDigit(s[i]) }

  /** An optional sign, digits, and the range of a 64-bit int. */
  function Atoi(s: string): Option<int> {
    var negative := s != "" && s[0] == '-';
    var digits := if s != "" && (s[0] == '-' || s[0] == '+') then s[1..] else s;
    if !AllDigits(digits) then None
    else
      var v: int := Value(digits);
      if negative then (if v <= MAX_INT + 1 then Some(-v) else None)
      else if v <= MAX_INT then Some(v) else None
  }

  lemma {:induction false} ValueItoa(n: nat)
    ensures Value(Itoa(n)) == n
  {
    if n >= 10 {
      ValueItoa(n / 10);
      assert Itoa(n)[..|Itoa(n)| - 1] == Itoa(n / 10);
    }
  }

  lemma AtoiItoa(n: nat)
    requires n <= MAX_INT
    ensures Atoi(Itoa(n)) == Some(n)
  {
    ValueItoa(n);
    assert IsDigit(Itoa(n)[0]);
  }

  /** Digits are read as their value, with either sign, within the range of a 64-bit int. */
  lemma AtoiReads(ds: string)
    requires AllDigits(ds)
    ensures var v: int := Value(ds);
            && Atoi(ds) == Atoi("+" + ds) == (if v <= 0x7FFF_FFFF_FFFF_FFFF then Some(v) else None)
            && Atoi("-" + ds) == (if v <= 0x8000_0000_0000_0000 then Some(-v) else None)
  {
    assert ("+" + ds)[1..] == ds && ("-" + ds)[1..] == ds && IsDigit(ds[0]);
  }

  /** Nothing else is read. */
  lemma AtoiRefuses(s: string)
    requires Atoi(s).Some?
    ensures AllDigits(s) || (s != "" && (s[0] == '+' || s[0] == '-') && AllDigits(s[1..]))
  {}

  // ---- one page ------------------------------------------------------------

  datatype Page<T> = Page(entries: seq<T>, next: string)

  /** Where a token starts; the empty token starts at the beginning. */
  function Offset(token: string): Option<int> { if token == "" then Some(0) else Atoi(token) }

  predicate Accepted(len: nat, token: string) { Offset(token).Some? && 0 <= Offset(token).value <= len }

  function Paginate<T>(entries: seq<T>, token: string, max: int): Option<Page<T>> {
    if !Accepted(|entries|, token) then None
    else
      var offset := Offset(token).value;
      var rest := entries[offset..];
      if 0 < max < |rest| then Some(Page(rest[..max], Itoa(offset + max))) else Some(Page(rest, ""))
  }

  /** A token is refused exactly if it is neither empty nor a number from 0 to the length of the list. */
  lemma RefusedIff<T>(entries: seq<T>, token: string, max: int)
    ensures Paginate(entries, token, max).None? <==>
              token != "" && (Atoi(token).None? || Atoi(token).value < 0 || Atoi(token).value > |entries|)
  {}

  /** A page is the entries from its token up to the next one, which lies strictly ahead. It is as long
      as asked for, unless fewer are left or no length is asked for; then it is the last. */
  lemma PageIs<T>(entries: seq<T>, token: string, max: int)
    requires |entries| <= MAX_INT && Accepted(|entries|, token)
    ensures var p, left := Paginate(entries, token, max).value, |entries| - Offset(token).value;
            && |p.entries| == (if 0 < max < left then max else left)
            && (p.next == "" <==> max <= 0 || left <= max)
    ensures var p := Paginate(entries, token, max).value;
            var from := Offset(token).value;
            if p.next == "" then p.entries == entries[from..]
            else
              && Accepted(|entries|, p.next) && from < Offset(p.next).value
              && p.entries == entries[from..Offset(p.next).value]
  {
    var from := Offset(token).value;
    if 0 < max < |entries| - from {
      AtoiItoa(from + max);
      assert entries[from..][..max] == entries[from..from + max];
    }
  }

  // ---- a whole listing -----------------------------------------------------

  /** Follow the next tokens, asking for `sizes(k)` entries on the k-th call. */
  function Collect<T>(entries: seq<T>, token: string, sizes: nat -> int, k: nat): seq<T>
    requires |entries| <= MAX_INT && Accepted(|entries|, token)
    decreases |entries| - Offset(token).value
  {
    PageIs(entries, token, sizes(k));
    var p := Paginate(entries, token, sizes(k)).value;
    if p.next == "" then p.entries else p.entries + Collect(entries, p.next, sizes, k + 1)
  }

  lemma {:induction false} CollectRest<T>(entries: seq<T>, token: string, sizes: nat -> int, k: nat)
    requires |entries| <= MAX_INT && Accepted(|entries|, token)
    ensures Collect(entries, token, sizes, k) == entries[Offset(token).value..]
    decreases |entries| - Offset(token).value
  {
    hide Atoi;
    PageIs(entries, token, sizes(k));
    var p := Paginate(entries, token, sizes(k)).value;
    if p.next != "" {
      CollectRest(entries, p.next, sizes, k + 1);
      var from, to := Offset(token).value, Offset(p.next).value;
      assert entries[from..to] + entries[to..] == entries[from..];
    }
  }

  /** Whatever page sizes are asked for, following the tokens returns the whole list once, in
      order. */
  lemma ListsEverythingOnce<T>(entries: seq<T>, sizes: nat -> int)
    requires |entries| <= MAX_INT
    ensures Collect(entries, "", sizes, 0) == entries
  {
    CollectRest(entries, "", sizes, 0);
  }
}
