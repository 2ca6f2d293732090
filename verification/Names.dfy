/** `SanitizeName` of `Protocol.hpp`. */
module Names {
  import opened Types
  import opened Protocol

  const SPACE: byte := 0x20

  /** "Wastelander" */
  const DEFAULT_NAME: Bytes := [0x57, 0x61, 0x73, 0x74, 0x65, 0x6C, 0x61, 0x6E, 0x64, 0x65, 0x72]

  predicate Printable(c: byte) { 0x20 <= c < 0x7F }

  function PrintableOnly(s: Bytes): Bytes { Filter(s, Printable) }

  function TrimBack(s: Bytes): (r: Bytes)
    ensures r <= s && (r != [] ==> r[|r| - 1] != SPACE)
    ensures forall i | |r| <= i < |s| :: s[i] == SPACE
  {
    if s != [] && s[|s| - 1] == SPACE then TrimBack(s[..|s| - 1]) else s
  }

  function TrimFront(s: Bytes): (r: Bytes)
    ensures |r| <= |s| && r == s[|s| - |r|..] && (r != [] ==> r[0] != SPACE)
    ensures forall i | 0 <= i < |s| - |r| :: s[i] == SPACE
  {
    if s != [] && s[0] == SPACE then
      var r := TrimFront(s[1..]);
      assert s[1..][|s| - 1 - |r|..] == s[|s| - |r|..];
      assert forall i | 1 <= i < |s| - |r| :: s[i] == s[1..][i - 1];
      r
    else s
  }

  function Cut(s: Bytes): Bytes { if |s| > MAX_PLAYER_NAME then s[..MAX_PLAYER_NAME] else s }

  function Sanitized(name: Bytes): Bytes {
    var out := TrimFront(TrimBack(Cut(PrintableOnly(name))));
    if out == [] then DEFAULT_NAME else out
  }

  /** What a roster name may be: 1 to 32 printable bytes without a space at either end. */
  predicate GoodName(n: Bytes) {
    && 1 <= |n| <= MAX_PLAYER_NAME
    && (forall c | c in n :: Printable(c))
    && n[0] != SPACE && n[|n| - 1] != SPACE
  }

  method SanitizeName(name: Bytes) returns (out: Bytes)
    ensures out == Sanitized(name)
  {
    out := [];
    for i := 0 to |name|
      invariant out == PrintableOnly(name[..i])
    {
      assert name[..i + 1][..i] == name[..i];
      if 0x20 <= name[i] < 0x7F {
        out := out + [name[i]];
      }
    }
    assert name[..|name|] == name;
    if |out| > MAX_PLAYER_NAME {
      out := out[..MAX_PLAYER_NAME];
    }
    while out != [] && out[|out| - 1] == SPACE
      invariant TrimBack(out) == TrimBack(Cut(PrintableOnly(name)))
    {
      out := out[..|out| - 1];
    }
    while out != [] && out[0] == SPACE
      invariant TrimFront(out) == TrimFront(TrimBack(Cut(PrintableOnly(name))))
    {
      out := out[1..];
    }
    if out == [] {
      out := DEFAULT_NAME;
    }
  }

  ghost predicate AllPrintable(s: Bytes) { forall i | 0 <= i < |s| :: Printable(s[i]) }

  lemma CutPrintable(name: Bytes)
    ensures AllPrintable(Cut(PrintableOnly(name))) && |Cut(PrintableOnly(name))| <= MAX_PLAYER_NAME
  {
    var s := PrintableOnly(name);
    forall i | 0 <= i < |s|
      ensures Printable(s[i])
    {
      assert s[i] in s;
    }
  }

  lemma TrimBackPrintable(s: Bytes)
    requires AllPrintable(s)
    ensures AllPrintable(TrimBack(s))
  {
    hide Printable;
    var r := TrimBack(s);
    assert r == s[..|r|];
  }

  lemma TrimFrontPrintable(s: Bytes)
    requires AllPrintable(s)
    ensures AllPrintable(TrimFront(s))
  {
    hide Printable;
    var r := TrimFront(s);
    forall i | 0 <= i < |r|
      ensures Printable(r[i])
    {
      assert r[i] == s[|s| - |r| + i];
    }
  }

  /** What the front trim leaves ends as the string did. */
  lemma TrimFrontEnd(s: Bytes)
    requires TrimFront(s) != []
    ensures TrimFront(s)[|TrimFront(s)| - 1] == s[|s| - 1]
  {}

  lemma PrintableIsGood(n: Bytes)
    requires AllPrintable(n) && 1 <= |n| <= MAX_PLAYER_NAME && n[0] != SPACE && n[|n| - 1] != SPACE
    ensures GoodName(n)
  {
    hide Printable;
  }

  lemma SanitizedIsGood(name: Bytes)
    ensures GoodName(Sanitized(name))
  {
    hide AllPrintable, Printable, PrintableOnly, Cut, TrimBack, TrimFront, GoodName;
    var a := Cut(PrintableOnly(name));
    var b := TrimBack(a);
    CutPrintable(name);
    TrimBackPrintable(a);
    TrimFrontPrintable(b);
    if TrimFront(b) == [] {
      DefaultIsGood();
    } else {
      TrimFrontEnd(b);
      PrintableIsGood(TrimFront(b));
    }
  }

  lemma DefaultIsGood()
    ensures GoodName(DEFAULT_NAME)
  {}

  /** The fixed points of the sanitiser are exactly the good names. */
  lemma FixedPointIffGood(n: Bytes)
    ensures Sanitized(n) == n <==> GoodName(n)
  {
    SanitizedIsGood(n);
    if GoodName(n) {
      FilterUnchanged(n, Printable);
    }
  }

  /** `r` is `s` from `i` to `j`; outside there are only spaces, and `r` neither begins nor ends with one. */
  ghost predicate IsTrimmed(s: Bytes, r: Bytes, i: nat, j: nat) {
    && i <= j <= |s| && r == s[i..j]
    && (forall k | 0 <= k < i :: s[k] == 0x20) && (forall k | j <= k < |s| :: s[k] == 0x20)
    && (i < j ==> s[i] != 0x20 && s[j - 1] != 0x20)
  }

  /** What a name becomes: of its printable bytes, those from the blank to the tilde, in order, the first 32, without
      the spaces at either end; or "Wastelander" if that leaves nothing. */
  lemma SanitizedIs(name: Bytes) returns (shown: Bytes, trimmed: Bytes, i: nat, j: nat)
    ensures IsPick(name, shown, Printable) && (forall c | c in shown :: 0x20 <= c <= 0x7E)
    ensures (forall i | 0 <= i < |name| :: 0x20 <= name[i] <= 0x7E) ==> shown == name
    ensures IsTrimmed(if |shown| > 32 then shown[..32] else shown, trimmed, i, j)
    ensures Sanitized(name) == if trimmed == [] then Ascii("Wastelander") else trimmed
  {
    hide PrintableOnly, TrimBack, TrimFront, IsPick, IsTrimmed, IsBack, IsFront;
    shown := PrintableOnly(name);
    PrintablePicked(name);
    PrintableKept(name);
    var cut := if |shown| > 32 then shown[..32] else shown;
    var b := TrimBack(cut);
    trimmed := TrimFront(b);
    i, j := |b| - |trimmed|, |b|;
    BackIs(cut, b);
    FrontIs(b, trimmed);
    TrimsAre(cut, b, trimmed);
    DefaultIs();
  }

  lemma PrintableKept(name: Bytes)
    ensures forall c | c in PrintableOnly(name) :: 0x20 <= c <= 0x7E
    ensures (forall i | 0 <= i < |name| :: 0x20 <= name[i] <= 0x7E) ==> PrintableOnly(name) == name
  {
    if forall i | 0 <= i < |name| :: 0x20 <= name[i] <= 0x7E {
      FilterUnchanged(name, Printable);
    }
  }

  lemma TrimsAre(s: Bytes, b: Bytes, r: Bytes)
    requires IsBack(s, b) && IsFront(b, r)
    ensures IsTrimmed(s, r, |b| - |r|, |b|)
  {
    var i := |b| - |r|;
    forall k | 0 <= k < i
      ensures s[k] == 0x20
    {
      assert s[k] == b[k];
    }
    if r != [] {
      assert s[i] == b[i] == r[0];
      assert s[|b| - 1] == b[|b| - 1];
    }
  }

  ghost predicate IsBack(s: Bytes, b: Bytes) {
    |b| <= |s| && b == s[..|b|] && (b != [] ==> b[|b| - 1] != 0x20) && forall k | |b| <= k < |s| :: s[k] == 0x20
  }

  ghost predicate IsFront(b: Bytes, r: Bytes) {
    |r| <= |b| && r == b[|b| - |r|..] && (r != [] ==> r[0] != 0x20) && forall k | 0 <= k < |b| - |r| :: b[k] == 0x20
  }

  lemma BackIs(s: Bytes, b: Bytes)
    requires b == TrimBack(s)
    ensures IsBack(s, b)
  {}

  lemma FrontIs(b: Bytes, r: Bytes)
    requires r == TrimFront(b)
    ensures IsFront(b, r)
  {}

  lemma DefaultIs()
    ensures DEFAULT_NAME == Ascii("Wastelander")
  {}

  lemma PrintablePicked(name: Bytes)
    ensures IsPick(name, PrintableOnly(name), Printable)
  {
    FilterPicks(name, Printable);
  }

  lemma SanitizeIdempotent(n: Bytes)
    ensures Sanitized(Sanitized(n)) == Sanitized(n)
  {
    SanitizedIsGood(n);
    FixedPointIffGood(Sanitized(n));
  }

  lemma {:induction false} DecimalDigits(n: nat, width: nat)
    requires n < Pow10(width) && width >= 1
    ensures 1 <= |Decimal(n)| <= width && forall c | c in Decimal(n) :: 0x30 <= c < 0x3A
  {
    if n >= 10 {
      DecimalDigits(n / 10, width - 1);
    }
  }

  function Pow10(n: nat): nat { if n == 0 then 1 else 10 * Pow10(n - 1) }

  /** The default bot name, "Bot" and the id, passes the sanitiser unchanged. */
  lemma BotNameIsGood(id: u32)
    ensures GoodName([0x42, 0x6F, 0x74] + Decimal(id))
  {
    assert Pow10(3) == 1000 && Pow10(6) == 1000 * Pow10(3) && Pow10(9) == 1000 * Pow10(6);
    assert Pow10(10) == 10 * Pow10(9);
    DecimalDigits(id, 10);
  }
}
