/** The currency table and its lookup (src/main/kotlin/models/CurrencyType.kt). */
module Currency {
  import opened Wrappers
  import opened Seqs

  /** The ten constants, in declaration order. */
  datatype CurrencyType = USD | EUR | GBP | JPY | AUD | CAD | CHF | CNY | SEK | NZD

  const Entries: seq<CurrencyType> := [USD, EUR, GBP, JPY, AUD, CAD, CHF, CNY, SEK, NZD]

  /** Position in declaration order (`ordinal`). */
  function Ordinal(c: CurrencyType): (i: nat)
    ensures i < |Entries| && Entries[i] == c
  {
    match c
    case USD => 0 case EUR => 1 case GBP => 2 case JPY => 3 case AUD => 4
    case CAD => 5 case CHF => 6 case CNY => 7 case SEK => 8 case NZD => 9
  }

  /** The enum constant's `name`. */
  function Name(c: CurrencyType): string {
    match c
    case USD => "USD" case EUR => "EUR" case GBP => "GBP" case JPY => "JPY" case AUD => "AUD"
    case CAD => "CAD" case CHF => "CHF" case CNY => "CNY" case SEK => "SEK" case NZD => "NZD"
  }

  function Code(c: CurrencyType): string {
    match c
    case USD => "USD" case EUR => "EUR" case GBP => "GBP" case JPY => "JPY" case AUD => "AUD"
    case CAD => "CAD" case CHF => "CHF" case CNY => "CNY" case SEK => "SEK" case NZD => "NZD"
  }

  function Symbol(c: CurrencyType): string {
    match c
    case USD => "$" case EUR => "€" case GBP => "£" case JPY => "¥" case AUD => "A$"
    case CAD => "C$" case CHF => "Fr." case CNY => "¥" case SEK => "kr" case NZD => "NZ$"
  }

  function FullName(c: CurrencyType): string {
    match c
    case USD => "United States Dollar" case EUR => "Euro" case GBP => "British Pound Sterling"
    case JPY => "Japanese Yen" case AUD => "Australian Dollar" case CAD => "Canadian Dollar"
    case CHF => "Swiss Franc" case CNY => "Chinese Yuan" case SEK => "Swedish Krona"
    case NZD => "New Zealand Dollar"
  }

  /** The predicate `find` tests: `it.code == code || it.fullName == code`. */
  predicate Matches(c: CurrencyType, s: string) { Code(c) == s || FullName(c) == s }

  /** `CurrencyType.find`: the first constant in declaration order whose code or full
      name is `s`; USD when there is none. */
  function Find(s: string): (r: CurrencyType)
    ensures Matches(r, s) || ((forall c :: !Matches(c, s)) && r == USD)
    ensures forall i :: 0 <= i < Ordinal(r) ==> !Matches(Entries[i], s)
  {
    var p := (c: CurrencyType) => Matches(c, s);
    var found := FindFirst(Entries, p);
    FindFirstIsFirst(p, found);
    assert forall c :: p(c) == Matches(c, s);
    found.GetOr(USD)
  }

  /** Every constant sits at its ordinal in the table. */
  lemma OrdinalOfEntry(i: nat)
    requires i < |Entries|
    ensures Ordinal(Entries[i]) == i
  {
  }

  /** `find` over the table, for any test: the first hit has no hit before its ordinal,
      and a miss means no constant passes. */
  lemma {:induction false} FindFirstIsFirst(p: CurrencyType -> bool, found: Option<CurrencyType>)
    requires found == FindFirst(Entries, p)
    ensures found.Some? ==>
      p(found.value) && forall i :: 0 <= i < Ordinal(found.value) ==> !p(Entries[i])
    ensures found.None? ==> forall c :: !p(c)
  {
    if found.Some? {
      var i :| 0 <= i < |Entries| && Entries[i] == found.value && p(Entries[i]) &&
               forall j :: 0 <= j < i ==> !p(Entries[j]);
      OrdinalOfEntry(i);
    } else {
      forall c ensures !p(c) { assert Entries[Ordinal(c)] == c; }
    }
  }

  /** No code is another constant's code or full name. */
  lemma CodeIdentifies(c: CurrencyType, d: CurrencyType)
    requires Matches(d, Code(c))
    ensures d == c
  {
  }

  /** No full name is another constant's code or full name. */
  lemma FullNameIdentifies(c: CurrencyType, d: CurrencyType)
    requires Matches(d, FullName(c))
    ensures d == c
  {
  }

  lemma {:induction false} FindByCode(c: CurrencyType)
    ensures Find(Code(c)) == c
  {
    assert Matches(c, Code(c));
    CodeIdentifies(c, Find(Code(c)));
  }

  lemma {:induction false} FindByFullName(c: CurrencyType)
    ensures Find(FullName(c)) == c
  {
    assert Matches(c, FullName(c));
    FullNameIdentifies(c, Find(FullName(c)));
  }

  /** `find` never looks at symbols: every symbol, including the "¥" that JPY and CNY
      share, falls through to USD. */
  lemma {:induction false} FindBySymbolIsUsd(c: CurrencyType)
    ensures Find(Symbol(c)) == USD
  {
    forall d ensures !Matches(d, Symbol(c)) {
      SymbolIsNoCode(c, d);
    }
    MissIsUsd(Symbol(c));
  }

  /** A string that no constant matches finds USD. */
  lemma MissIsUsd(s: string)
    requires forall d :: !Matches(d, s)
    ensures Find(s) == USD
  {
  }

  lemma {:induction false} SymbolIsNoCode(c: CurrencyType, d: CurrencyType)
    ensures !Matches(d, Symbol(c))
  {
    CodeIsThreeCapitals(d);
    FullNameIsLong(d);
    SymbolIsShort(c);
  }

  lemma CodeIsThreeCapitals(c: CurrencyType)
    ensures |Code(c)| == 3 && 'A' <= Code(c)[2] <= 'Z'
  {
  }

  lemma FullNameIsLong(c: CurrencyType)
    ensures |FullName(c)| > 3
  {
  }

  /** A symbol is at most three characters, and a three-character one ends in a
      character that is not a capital letter. */
  lemma SymbolIsShort(c: CurrencyType)
    ensures |Symbol(c)| <= 3 && (|Symbol(c)| == 3 ==> !('A' <= Symbol(c)[2] <= 'Z'))
  {
  }

  /** Every constant is named by its code, so `name` and `code` are interchangeable. */
  lemma NameIsCode(c: CurrencyType)
    ensures Name(c) == Code(c) && Find(Name(c)) == c
  {
    FindByCode(c);
  }
}
