/** Domain types shared by the services. */
module Domain {

  datatype Option<+T> = None | Some(value: T)

  type UserId = nat
  type OrderId = nat
  type EventId = nat

  /** A stored quantity; the column carries CHECK (quantity > 0). */
  type Quantity = q: int | q > 0 witness 1

  /** The row a holding lives in: the primary key (user_id, symbol). */
  type Slot = (UserId, string)

  datatype Side = Buy | Sell

  datatype OrderStatus = Created | Priced | Executed | Rejected {
    predicate Terminal()
    {
      Executed? || Rejected?
    }
  }

  datatype RejectionReason =
    | UnknownSymbol
    | MarketUnavailable
    | InsufficientBalance
    | InsufficientAsset
    | InvalidOrder

  /** The human-readable detail of a rejection, kept as the values it is formatted from. */
  datatype Detail =
    | NoSuchSymbol(symbol: string)
    | NoMarket(symbol: string)
    | ShortOfCash(need: int, have: nat)
    | ShortOfAsset(required: Quantity, asset: string, held: nat)

  /** A row of the `orders` table; `symbol` is the text the client sent. */
  datatype OrderRow = OrderRow(
    user: UserId,
    symbol: string,
    side: Side,
    quantity: Quantity,
    status: OrderStatus,
    price: Option<int>,
    reason: Option<Detail>)
  {
    /** The symbol after `into_domain`. */
    function Asset(): string
    {
      Normalize(symbol)
    }

    function HoldingSlot(): Slot
    {
      (user, Asset())
    }
  }

  // ---------------------------------------------------------------- symbols

  predicate IsSpace(c: char)
  {
    c == ' ' || c == '\t' || c == '\n' || c == '\r' || c as int == 0x0b || c as int == 0x0c
  }

  function UpperChar(c: char): char
  {
    if 'a' <= c <= 'z' then (c as int - 32) as char else c
  }

  function TrimStart(s: string): string
  {
    if s != "" && IsSpace(s[0]) then TrimStart(s[1..]) else s
  }

  function TrimEnd(s: string): string
  {
    if s != "" && IsSpace(s[|s| - 1]) then TrimEnd(s[..|s| - 1]) else s
  }

  function ToUpper(s: string): (r: string)
    ensures |r| == |s| && forall i :: 0 <= i < |s| ==> r[i] == UpperChar(s[i])
  {
    seq(|s|, i requires 0 <= i < |s| => UpperChar(s[i]))
  }

  function Trimmed(s: string): string
  {
    TrimEnd(TrimStart(s))
  }

  /** `Symbol::new`: trim, then upper-case. */
  function Normalize(s: string): string
  {
    ToUpper(Trimmed(s))
  }

  /** No blanks at either end and no lower-case letter. */
  predicate IsNormal(s: string)
  {
    && (s != "" ==> !IsSpace(s[0]) && !IsSpace(s[|s| - 1]))
    && forall i :: 0 <= i < |s| ==> !('a' <= s[i] <= 'z')
  }

  lemma {:induction false} TrimStartShape(s: string)
    ensures var r := TrimStart(s);
            && |r| <= |s| && r == s[|s| - |r|..]
            && (forall i :: 0 <= i < |s| - |r| ==> IsSpace(s[i]))
            && (r != "" ==> !IsSpace(r[0]))
  {
    if s != "" && IsSpace(s[0]) {
      TrimStartShape(s[1..]);
      var r := TrimStart(s[1..]);
      assert forall i :: 1 <= i < |s| - |r| ==> s[i] == s[1..][i - 1];
    }
  }

  lemma {:induction false} TrimEndShape(s: string)
    ensures var r := TrimEnd(s);
            && |r| <= |s| && r == s[..|r|]
            && (forall i :: |r| <= i < |s| ==> IsSpace(s[i]))
            && (r != "" ==> !IsSpace(r[|r| - 1]))
  {
    if s != "" && IsSpace(s[|s| - 1]) {
      TrimEndShape(s[..|s| - 1]);
    }
  }

  /** Every normalised symbol is normal, and the normal strings are exactly the fixed points. */
  lemma NormalizeFixedPoint(s: string)
    ensures IsNormal(Normalize(s))
    ensures Normalize(s) == s <==> IsNormal(s)
    ensures Normalize(Normalize(s)) == Normalize(s)
  {
    NormalizeIsNormal(s);
    NormalIsFixed(Normalize(s));
    if IsNormal(s) {
      NormalIsFixed(s);
    }
  }

  lemma NormalizeIsNormal(s: string)
    ensures IsNormal(Normalize(s))
  {
    var a := TrimStart(s);
    TrimStartShape(s);
    var b := TrimEnd(a);
    TrimEndShape(a);
    assert b != "" ==> b[0] == a[0];
    UpperIsNormal(b);
  }

  lemma UpperCharKept(c: char)
    ensures !('a' <= UpperChar(c) <= 'z')
    ensures IsSpace(UpperChar(c)) <==> IsSpace(c)
  {
  }

  lemma UpperIsNormal(s: string)
    requires s != "" ==> !IsSpace(s[0]) && !IsSpace(s[|s| - 1])
    ensures IsNormal(ToUpper(s))
  {
    forall i | 0 <= i < |s|
      ensures !('a' <= ToUpper(s)[i] <= 'z')
      ensures IsSpace(ToUpper(s)[i]) <==> IsSpace(s[i])
    {
      UpperCharKept(s[i]);
    }
  }

  lemma NormalIsFixed(s: string)
    requires IsNormal(s)
    ensures Normalize(s) == s
  {
    assert TrimEnd(TrimStart(s)) == s;
    assert ToUpper(s) == s;
  }

  /** A symbol vanishes under normalisation exactly when it is all blanks. */
  lemma NormalizeEmpty(s: string)
    ensures Normalize(s) == "" <==> forall i :: 0 <= i < |s| ==> IsSpace(s[i])
  {
    var a := TrimStart(s);
    TrimStartShape(s);
    TrimEndShape(a);
    if a != "" {
      assert s[|s| - |a|] == a[0];
      assert !IsSpace(a[0]);
      assert TrimEnd(a) != "";
    }
  }

  // ---------------------------------------------------------------- what normalising keeps

  /** Trimming leaves the stretch between the outer blanks: everything outside it is blank, and neither
   *  end of it is. */
  lemma TrimmedMeaning(s: string) returns (from: nat, to: nat)
    ensures from <= to <= |s| && Trimmed(s) == s[from..to]
    ensures forall i :: 0 <= i < from || to <= i < |s| ==> s[i] in " \t\n\r\U{0b}\U{0c}"
    ensures from < to ==> s[from] !in " \t\n\r\U{0b}\U{0c}" && s[to - 1] !in " \t\n\r\U{0b}\U{0c}"
  {
    var a := TrimStart(s);
    TrimStartShape(s);
    var b := TrimEnd(a);
    TrimEndShape(a);
    from, to := |s| - |a|, |s| - |a| + |b|;
    forall i | to <= i < |s|
      ensures IsSpace(s[i])
    {
      assert s[i] == a[i - from];
    }
  }

  /** The place of a letter in the alphabet, whatever its case. */
  function LetterPlace(c: char): Option<int>
  {
    if 'a' <= c <= 'z' then Some(c as int - 'a' as int)
    else if 'A' <= c <= 'Z' then Some(c as int - 'A' as int)
    else None
  }

  /** Letter by letter: a lower-case letter becomes the capital at its place in the alphabet, and every
   *  other character stays. */
  lemma NormalizeMeaning(s: string)
    ensures |Normalize(s)| == |Trimmed(s)|
    ensures forall i :: 0 <= i < |Normalize(s)| ==>
              var c, d := Trimmed(s)[i], Normalize(s)[i];
              if 'a' <= c <= 'z' then 'A' <= d <= 'Z' && d as int - 'A' as int == c as int - 'a' as int else d == c
  {
  }

  /** Two characters are equal up to case. */
  predicate SameLetter(c: char, d: char)
  {
    c == d || (LetterPlace(c).Some? && LetterPlace(c) == LetterPlace(d))
  }

  lemma SameLetterMeaning(c: char, d: char)
    ensures SameLetter(c, d) <==>
              c == d || ('a' <= c <= 'z' && 'A' <= d <= 'Z' && d as int == c as int - 32)
                     || ('a' <= d <= 'z' && 'A' <= c <= 'Z' && c as int == d as int - 32)
    ensures SameLetter(c, d) <==> UpperChar(c) == UpperChar(d)
  {
  }

  /** Texts are the same symbol if and only if, trimmed, they are equal up to case. */
  lemma SameSymbol(s: string, s': string)
    ensures Normalize(s) == Normalize(s') <==>
              |Trimmed(s)| == |Trimmed(s')| && forall i :: 0 <= i < |Trimmed(s)| ==> SameLetter(Trimmed(s)[i], Trimmed(s')[i])
  {
    var a, b := Trimmed(s), Trimmed(s');
    if |a| == |b| {
      forall i | 0 <= i < |a|
        ensures SameLetter(a[i], b[i]) <==> Normalize(s)[i] == Normalize(s')[i]
      {
        SameLetterMeaning(a[i], b[i]);
      }
    }
  }

  /** Two orders share a holdings row if and only if they are of one user and their symbols, trimmed, are
   *  equal up to case. */
  lemma SameHolding(row: OrderRow, row': OrderRow)
    ensures row.HoldingSlot() == row'.HoldingSlot() <==>
              && row.user == row'.user
              && |Trimmed(row.symbol)| == |Trimmed(row'.symbol)|
              && forall i :: 0 <= i < |Trimmed(row.symbol)| ==> SameLetter(Trimmed(row.symbol)[i], Trimmed(row'.symbol)[i])
  {
    SameSymbol(row.symbol, row'.symbol);
  }
}
