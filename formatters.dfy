/** Text formatters of the transfer service: durations, balance ranges,
    identifiers and descriptions. Case mapping covers ASCII letters. */
module Formatters {
  import opened Wrappers
  import opened Strings

  // ---------------------------------------------------------------------
  // Abbreviations and the first letter
  // ---------------------------------------------------------------------

  /** Membership in the list "bic", "iban", "sepa", "swift". */
  function IsCommonAbbreviation(str: string): (r: bool)
    ensures r ==> |str| >= 3 && forall i :: 0 <= i < |str| ==> IsLower(str[i])
    ensures r <==> str in ["bic", "iban", "sepa", "swift"]
  {
    str == "bic" || str == "iban" || str == "sepa" || str == "swift"
  }

  function UppercaseIfCommonAbbreviation(str: string): (r: string)
    ensures IsCommonAbbreviation(str) ==> r == Upper(str)
    ensures !IsCommonAbbreviation(str) ==> r == str
  {
    if IsCommonAbbreviation(str) then Upper(str) else str
  }

  /** `str[0].toUpperCase() + str.slice(1)`; on "" the source fails, since
      `str[0]` is undefined. */
  function UppercaseFirstLetter(str: string): (r: string)
    requires str != []
    ensures |r| == |str| && r[0] == UpperChar(str[0]) && r[1..] == str[1..]
  {
    [UpperChar(str[0])] + str[1..]
  }

  // ---------------------------------------------------------------------
  // formatDuration
  // ---------------------------------------------------------------------

  const SecondsPerYear := 365 * 24 * 60 * 60

  datatype DurationUnit = Seconds | Minutes | Hours | Days

  function UnitName(unit: DurationUnit): string {
    match unit
    case Seconds => "seconds"
    case Minutes => "minutes"
    case Hours => "hours"
    case Days => "days"
  }

  /** `Math.round(n / d)` for a non-negative quotient: the nearest whole
      number, halves rounded up. */
  function RoundedQuotient(n: nat, d: nat): (r: nat)
    requires d > 0
    ensures 2 * d * r <= 2 * n + d < 2 * d * (r + 1)
  {
    (2 * n + d) / (2 * d)
  }

  /** The count and unit `formatDuration` prints, none for an illegal value. */
  function DurationCount(seconds: int): (r: Option<(nat, DurationUnit)>)
    ensures r.None? <==> seconds < 0 || seconds > SecondsPerYear
    ensures r.Some? ==>
      && (r.value.1 == Seconds <==> seconds < 90)
      && (r.value.1 == Minutes <==> 90 <= seconds < 90 * 60)
      && (r.value.1 == Hours <==> 90 * 60 <= seconds < 48 * 60 * 60)
      && (r.value.1 == Days <==> 48 * 60 * 60 <= seconds)
    ensures r.Some? && r.value.1 == Seconds ==> r.value.0 == seconds
    ensures r.Some? && r.value.1 == Minutes ==> r.value.0 == RoundedQuotient(seconds, 60)
    ensures r.Some? && r.value.1 == Hours ==> r.value.0 == RoundedQuotient(seconds, 60 * 60)
    ensures r.Some? && r.value.1 == Days ==> r.value.0 == RoundedQuotient(seconds, 24 * 60 * 60)
  {
    if seconds < 0 || seconds > SecondsPerYear then None
    else if seconds < 90 then Some((seconds, Seconds))
    else if seconds < 90 * 60 then Some((RoundedQuotient(seconds, 60), Minutes))
    else if seconds < 48 * 60 * 60 then Some((RoundedQuotient(seconds, 60 * 60), Hours))
    else Some((RoundedQuotient(seconds, 24 * 60 * 60), Days))
  }

  const IllegalDuration := "<illegal value>"

  /** `formatDuration` for a whole number of seconds. */
  function FormatDuration(seconds: int): (r: string)
    ensures r == IllegalDuration <==> seconds < 0 || seconds > SecondsPerYear
  {
    match DurationCount(seconds)
    case None => IllegalDuration
    case Some((count, unit)) =>
      var text := NatToString(count) + " " + UnitName(unit);
      assert text[0] != IllegalDuration[0];
      text
  }

  /** The printed count stays in the range its unit was chosen for. */
  lemma DurationCountBounds(seconds: int)
    requires 0 <= seconds <= SecondsPerYear
    ensures var (count, unit) := DurationCount(seconds).value;
      && (unit == Seconds ==> count == seconds && count <= 89)
      && (unit == Minutes ==> 2 <= count <= 90)
      && (unit == Hours ==> 2 <= count <= 48)
      && (unit == Days ==> 2 <= count <= 365)
  {
  }

  /** Reads a printed duration back. */
  function ParseDuration(text: string): (r: Option<(nat, DurationUnit)>)
  {
    var words := Split(text, ' ');
    if |words| != 2 || words[0] == [] || !AllDigits(words[0]) then None
    else
      var count := DigitsValue(words[0]);
      if words[1] == "seconds" then Some((count, Seconds))
      else if words[1] == "minutes" then Some((count, Minutes))
      else if words[1] == "hours" then Some((count, Hours))
      else if words[1] == "days" then Some((count, Days))
      else None
  }

  /** The text determines the count and unit: reading it back gives what
      was printed, and the illegal-value text reads as nothing. */
  lemma {:induction false} ParseFormatDuration(seconds: int)
    ensures ParseDuration(FormatDuration(seconds)) == DurationCount(seconds)
  {
    match DurationCount(seconds)
    case None =>
      assert IllegalDuration == "<illegal" + [' '] + "value>";
      SplitJoin(["<illegal", "value>"], ' ');
      assert Split(IllegalDuration, ' ')[0][0] == '<';
    case Some((count, unit)) =>
      var digits := NatToString(count);
      assert ' ' !in digits by {
        assert forall i :: 0 <= i < |digits| ==> digits[i] != ' ';
      }
      assert FormatDuration(seconds) == Join([digits, UnitName(unit)], ' ');
      SplitJoin([digits, UnitName(unit)], ' ');
      NatToStringValue(count);
  }

  // ---------------------------------------------------------------------
  // formatBalanceRange
  // ---------------------------------------------------------------------

  /** `minBig(balance, maxAmount)` when a maximum is given, else the balance. */
  function UpperBound(balance: real, maxAmount: Option<real>): (r: real)
    ensures r <= balance
    ensures maxAmount.None? ==> r == balance
    ensures maxAmount.Some? ==> r <= maxAmount.value && (r == balance || r == maxAmount.value)
  {
    match maxAmount
    case None => balance
    case Some(m) => if balance < m then balance else m
  }

  /** `formatBalanceRange`; `formatBalance` renders one amount. Only a
      positive minimum counts; the maximum is always present, so the
      "Min." and empty outcomes of the source are never produced. */
  function FormatBalanceRange(balance: real, minAmount: Option<real>, maxAmount: Option<real>,
                              formatBalance: real -> string): (r: string)
    ensures var top := UpperBound(balance, maxAmount);
      && (minAmount.None? || minAmount.value <= 0.0 ==> r == "Max. " + formatBalance(top))
      && (minAmount.Some? && 0.0 < minAmount.value && top < minAmount.value ==>
            r == "Not possible - Minimum " + formatBalance(minAmount.value))
      && (minAmount.Some? && 0.0 < minAmount.value <= top ==>
            r == formatBalance(minAmount.value) + " - " + formatBalance(top))
  {
    var min := if minAmount.Some? && minAmount.value > 0.0 then minAmount else None;
    var max := Some(if maxAmount.Some? then (if balance < maxAmount.value then balance else maxAmount.value) else balance);
    match (min, max)
    case (Some(lo), Some(hi)) =>
      if lo > hi then "Not possible - Minimum " + formatBalance(lo)
      else formatBalance(lo) + " - " + formatBalance(hi)
    case (Some(lo), None) => "Min. " + formatBalance(lo)
    case (None, Some(hi)) => "Max. " + formatBalance(hi)
    case (None, None) => ""
  }

  // ---------------------------------------------------------------------
  // formatIdentifier
  // ---------------------------------------------------------------------

  /** `replace(/[-_]/g, " ")`. */
  function ReplaceSeparators(s: string): (r: string)
    ensures |r| == |s|
    ensures forall i :: 0 <= i < |s| ==> r[i] == if s[i] == '-' || s[i] == '_' then ' ' else s[i]
  {
    seq(|s|, i requires 0 <= i < |s| => if s[i] == '-' || s[i] == '_' then ' ' else s[i])
  }

  /** The words of an identifier, as `split(" ")` yields them. */
  function IdentifierWords(identifier: string): seq<string> {
    Split(ReplaceSeparators(identifier), ' ')
  }

  /** The source needs a first word that is not empty. */
  predicate HasFirstWord(identifier: string) {
    identifier != [] && identifier[0] != ' ' && identifier[0] != '-' && identifier[0] != '_'
  }

  /** The first word is empty exactly when the identifier is empty or
      starts with a separator. */
  lemma FirstWordNonEmpty(identifier: string)
    ensures HasFirstWord(identifier) <==> IdentifierWords(identifier)[0] != []
  {
    var s := ReplaceSeparators(identifier);
    if identifier != [] {
      assert s[0] == ' ' <==> !HasFirstWord(identifier);
    }
  }

  /** The words after capitalising the first one. */
  function CapitalizedWords(words: seq<string>): (r: seq<string>)
    requires |words| >= 1 && words[0] != []
    ensures |r| == |words| && r[0] == UppercaseFirstLetter(words[0]) && r[1..] == words[1..]
  {
    [UppercaseFirstLetter(words[0])] + words[1..]
  }

  function AbbreviationsUppercased(words: seq<string>): (r: seq<string>)
    ensures |r| == |words|
    ensures forall k :: 0 <= k < |words| ==> r[k] == UppercaseIfCommonAbbreviation(words[k])
  {
    seq(|words|, k requires 0 <= k < |words| => UppercaseIfCommonAbbreviation(words[k]))
  }

  /** The words `formatIdentifier` joins with single spaces. */
  function FormattedWords(identifier: string): (r: seq<string>)
    requires HasFirstWord(identifier)
  {
    FirstWordNonEmpty(identifier);
    AbbreviationsUppercased(CapitalizedWords(IdentifierWords(identifier)))
  }

  /** `formatIdentifier`: no separator survives and the length is kept;
      `FormatIdentifierProperties` states what happens to each word. */
  function FormatIdentifier(identifier: string): (r: string)
    requires HasFirstWord(identifier)
    ensures |r| == |identifier|
    ensures '-' !in r && '_' !in r
  {
    var out := FormattedWords(identifier);
    FormattedWordsShape(identifier);
    JoinSplit(ReplaceSeparators(identifier), ' ');
    JoinLength(out, IdentifierWords(identifier), ' ');
    JoinAvoids(out, ' ', '-');
    JoinAvoids(out, ' ', '_');
    Join(out, ' ')
  }

  /** Upper-casing keeps a character that is not a lower-case letter. */
  lemma UpperKeeps(s: string, c: char)
    requires !IsLetter(c)
    ensures c in Upper(s) <==> c in s
  {
    if c in Upper(s) {
      var i :| 0 <= i < |s| && Upper(s)[i] == c;
      assert s[i] == c;
    }
    if c in s {
      var i :| 0 <= i < |s| && s[i] == c;
      assert Upper(s)[i] == c;
    }
  }

  /** A character absent from a text is absent from each of its pieces. */
  lemma {:induction false} SplitAvoids(s: string, sep: char, c: char)
    requires c !in s
    ensures forall k :: 0 <= k < |Split(s, sep)| ==> c !in Split(s, sep)[k]
    decreases |s|
  {
    if s != [] {
      SplitAvoids(s[1..], sep, c);
    }
  }

  lemma FormattedWordsShape(identifier: string)
    requires HasFirstWord(identifier)
    ensures var words, out := IdentifierWords(identifier), FormattedWords(identifier);
      && |out| == |words|
      && (forall k :: 0 <= k < |out| ==> |out[k]| == |words[k]|)
      && (forall k :: 0 <= k < |out| ==> ' ' !in out[k] && '-' !in out[k] && '_' !in out[k])
  {
    var s := ReplaceSeparators(identifier);
    var words := IdentifierWords(identifier);
    FirstWordNonEmpty(identifier);
    var cap := CapitalizedWords(words);
    SplitAvoids(s, ' ', '-');
    SplitAvoids(s, ' ', '_');
    CapitalizedWordsShape(words);
    forall k | 0 <= k < |cap|
      ensures ' ' !in Upper(cap[k]) && '-' !in Upper(cap[k]) && '_' !in Upper(cap[k])
    {
      UpperKeeps(cap[k], ' ');
      UpperKeeps(cap[k], '-');
      UpperKeeps(cap[k], '_');
    }
  }

  /** Capitalising the first word keeps every length and adds no space,
      '-' or '_'. */
  lemma CapitalizedWordsShape(words: seq<string>)
    requires |words| >= 1 && words[0] != []
    ensures var cap := CapitalizedWords(words);
      forall k :: 0 <= k < |words| ==>
        && |cap[k]| == |words[k]|
        && (' ' in cap[k] ==> ' ' in words[k])
        && ('-' in cap[k] ==> '-' in words[k])
        && ('_' in cap[k] ==> '_' in words[k])
  {
    var cap := CapitalizedWords(words);
    var w := words[0];
    assert w == [w[0]] + w[1..];
    assert cap[0] == [UpperChar(w[0])] + w[1..];
    forall k | 1 <= k < |words| ensures cap[k] == words[k] {
      assert cap[k] == cap[1..][k - 1];
    }
  }

  /** A character of a word is a character of the join. */
  lemma {:induction false} JoinCharsBack(words: seq<string>, sep: char, k: nat, c: char)
    requires k < |words| && c in words[k]
    ensures c in Join(words, sep)
    decreases |words|
  {
    if |words| > 1 && k > 0 {
      JoinCharsBack(words[1..], sep, k - 1, c);
    }
  }

  /** `formatIdentifier` turns every separator into a space, keeps the
      length and the number of words, capitalises only the first letter of
      the first word and fully upper-cases each later word that is a common
      abbreviation. */
  lemma FormatIdentifierProperties(identifier: string)
    requires HasFirstWord(identifier)
    ensures var r, words := FormatIdentifier(identifier), IdentifierWords(identifier);
      && '-' !in r && '_' !in r
      && |r| == |identifier|
      && |Split(r, ' ')| == |words|
      && Split(r, ' ')[0] == UppercaseFirstLetter(words[0])
      && (forall k :: 1 <= k < |words| ==>
            Split(r, ' ')[k] == if IsCommonAbbreviation(words[k]) then Upper(words[k]) else words[k])
  {
    var words := IdentifierWords(identifier);
    var out := FormattedWords(identifier);
    var r := FormatIdentifier(identifier);
    FormattedWordsShape(identifier);
    FirstWordNonEmpty(identifier);
    SplitJoin(out, ' ');
    JoinSplit(ReplaceSeparators(identifier), ' ');
    JoinLength(out, words, ' ');
    if '-' in r {
      JoinChars(out, ' ', '-');
    }
    if '_' in r {
      JoinChars(out, ' ', '_');
    }
    var first := UppercaseFirstLetter(words[0]);
    assert !IsCommonAbbreviation(first) by {
      assert !IsLower(first[0]);
    }
  }

  // ---------------------------------------------------------------------
  // formatDescriptionText
  // ---------------------------------------------------------------------

  /** `replace(/\. ([a-z])/g, ...)`: scanning left to right, each ". "
      followed by a lower-case letter gets that letter upper-cased. */
  function CapitalizeSentences(s: string): (r: string)
    ensures |r| == |s|
    decreases |s|
  {
    if s == [] then []
    else if |s| >= 3 && s[0] == '.' && s[1] == ' ' && IsLower(s[2]) then
      ". " + [UpperChar(s[2])] + CapitalizeSentences(s[3..])
    else [s[0]] + CapitalizeSentences(s[1..])
  }

  predicate AfterSentenceBreak(s: string, k: nat)
    requires k < |s|
  {
    k >= 2 && s[k - 2] == '.' && s[k - 1] == ' '
  }

  /** Position by position, the scan upper-cases exactly the characters
      that follow ". ". */
  lemma {:induction false} CapitalizeSentencesAt(s: string, k: nat)
    requires k < |s|
    ensures CapitalizeSentences(s)[k] == if AfterSentenceBreak(s, k) then UpperChar(s[k]) else s[k]
    decreases |s|
  {
    if |s| >= 3 && s[0] == '.' && s[1] == ' ' && IsLower(s[2]) {
      if k >= 3 {
        CapitalizeSentencesAt(s[3..], k - 3);
      }
    } else if k >= 1 {
      CapitalizeSentencesAt(s[1..], k - 1);
    }
  }

  predicate IsWordChar(c: char) { IsLetter(c) || IsDigit(c) || c == '_' }

  /** Length of the run of word characters (`\w`) that starts `s`. */
  function WordLength(s: string): (n: nat)
    ensures n <= |s|
    ensures n < |s| ==> !IsWordChar(s[n])
    ensures s != [] && IsWordChar(s[0]) ==> n > 0
    decreases |s|
  {
    if s == [] || !IsWordChar(s[0]) then 0 else 1 + WordLength(s[1..])
  }

  /** Every character of the run is a word character. */
  lemma {:induction false} WordLengthRun(s: string, i: nat)
    requires i < WordLength(s)
    ensures IsWordChar(s[i])
    decreases |s|
  {
    if i > 0 {
      WordLengthRun(s[1..], i - 1);
    }
  }

  predicate AllLetters(s: string) { forall i :: 0 <= i < |s| ==> IsLetter(s[i]) }

  /** A left-to-right scan that hands each maximal run of word characters
      to `f` and copies every other character. */
  function ScanWords(s: string, f: string -> string): (r: string)
    decreases |s|
  {
    if s == [] then []
    else if !IsWordChar(s[0]) then [s[0]] + ScanWords(s[1..], f)
    else
      var n := WordLength(s);
      f(s[..n]) + ScanWords(s[n..], f)
  }

  /** `replace(/\b([A-Za-z]+)\b/g, ...)`: a match is a whole run of word
      characters made only of letters; such a run is upper-cased when it is
      a common abbreviation. */
  function UppercaseAbbreviations(s: string): (r: string)
    ensures |r| == |s|
  {
    ScanWordsLength(s, ReplaceWord);
    ScanWords(s, ReplaceWord)
  }

  lemma {:induction false} ScanWordsLength(s: string, f: string -> string)
    requires forall w :: |f(w)| == |w|
    ensures |ScanWords(s, f)| == |s|
    decreases |s|
  {
    if s != [] {
      if !IsWordChar(s[0]) {
        ScanWordsLength(s[1..], f);
      } else {
        ScanWordsLength(s[WordLength(s)..], f);
      }
    }
  }

  /** The replacement of one run of word characters. */
  function ReplaceWord(word: string): (r: string)
    ensures |r| == |word|
    ensures r == UppercaseIfCommonAbbreviation(word)
  {
    if AllLetters(word) then UppercaseIfCommonAbbreviation(word) else word
  }

  /** `formatDescriptionText`: sentence capitals and abbreviations are
      fixed only for text that is all lower or all upper case; the first
      letter is always capitalised (the source fails on ""). */
  function FormatDescriptionText(description: string): (r: string)
    requires description != []
    ensures |r| == |description|
    ensures r[0] == UpperChar(description[0])
  {
    var text :=
      if description == Lower(description) || description == Upper(description) then
        var c := CapitalizeSentences(description);
        CapitalizeSentencesOnlyUppercases(description);
        UppercaseAbbreviationsOnlyUppercases(c);
        OnlyUppercasesTrans(description, c, UppercaseAbbreviations(c));
        UppercaseAbbreviations(c)
      else description;
    UppercaseFirstLetter(text)
  }

  /** `r` arises from `s` by upper-casing some of its characters. */
  ghost predicate OnlyUppercases(s: string, r: string) {
    |r| == |s| && forall i :: 0 <= i < |s| ==> r[i] == s[i] || r[i] == UpperChar(s[i])
  }

  lemma OnlyUppercasesTrans(a: string, b: string, c: string)
    requires OnlyUppercases(a, b) && OnlyUppercases(b, c)
    ensures OnlyUppercases(a, c)
  {
  }

  lemma OnlyUppercasesConcat(a: string, b: string, c: string, d: string)
    requires OnlyUppercases(a, b) && OnlyUppercases(c, d)
    ensures OnlyUppercases(a + c, b + d)
  {
    forall i | 0 <= i < |a + c| ensures (b + d)[i] == (a + c)[i] || (b + d)[i] == UpperChar((a + c)[i]) {
      if i >= |a| {
        assert (a + c)[i] == c[i - |a|] && (b + d)[i] == d[i - |a|];
      }
    }
  }

  lemma CapitalizeSentencesOnlyUppercases(s: string)
    ensures OnlyUppercases(s, CapitalizeSentences(s))
  {
    forall k | 0 <= k < |s| ensures CapitalizeSentences(s)[k] == s[k] || CapitalizeSentences(s)[k] == UpperChar(s[k]) {
      CapitalizeSentencesAt(s, k);
    }
  }

  lemma {:induction false} ScanWordsOnlyUppercases(s: string, f: string -> string)
    requires forall w :: OnlyUppercases(w, f(w))
    ensures OnlyUppercases(s, ScanWords(s, f))
    decreases |s|
  {
    if s != [] {
      if !IsWordChar(s[0]) {
        ScanWordsOnlyUppercases(s[1..], f);
        OnlyUppercasesConcat([s[0]], [s[0]], s[1..], ScanWords(s[1..], f));
        assert [s[0]] + s[1..] == s;
      } else {
        var n := WordLength(s);
        var word := s[..n];
        ScanWordsOnlyUppercases(s[n..], f);
        OnlyUppercasesConcat(word, f(word), s[n..], ScanWords(s[n..], f));
        assert word + s[n..] == s;
      }
    }
  }

  lemma UppercaseAbbreviationsOnlyUppercases(s: string)
    ensures OnlyUppercases(s, UppercaseAbbreviations(s))
  {
    forall w ensures OnlyUppercases(w, ReplaceWord(w)) {
    }
    ScanWordsOnlyUppercases(s, ReplaceWord);
  }

  lemma FormatDescriptionTextOnlyUppercases(description: string)
    requires description != []
    ensures OnlyUppercases(description, FormatDescriptionText(description))
  {
    var text :=
      if description == Lower(description) || description == Upper(description) then
        UppercaseAbbreviations(CapitalizeSentences(description))
      else description;
    if description == Lower(description) || description == Upper(description) {
      CapitalizeSentencesOnlyUppercases(description);
      UppercaseAbbreviationsOnlyUppercases(CapitalizeSentences(description));
      OnlyUppercasesTrans(description, CapitalizeSentences(description), text);
    }
    assert OnlyUppercases(text, UppercaseFirstLetter(text));
    OnlyUppercasesTrans(description, text, UppercaseFirstLetter(text));
  }

  /** Only letter case changes: both texts agree once lower-cased. */
  lemma FormatDescriptionTextKeepsLetters(description: string)
    requires description != []
    ensures Lower(FormatDescriptionText(description)) == Lower(description)
  {
    FormatDescriptionTextOnlyUppercases(description);
  }

  /** Mixed-case text only gets its first character capitalised. */
  lemma FormatDescriptionTextMixedCase(description: string)
    requires description != []
    requires description != Lower(description) && description != Upper(description)
    ensures FormatDescriptionText(description) == UppercaseFirstLetter(description)
  {
  }

  /** All-upper-case text is returned unchanged. */
  lemma FormatDescriptionTextAllUpper(description: string)
    requires description != [] && description == Upper(description)
    ensures FormatDescriptionText(description) == description
  {
    FormatDescriptionTextOnlyUppercases(description);
    var r := FormatDescriptionText(description);
    forall i | 0 <= i < |description| ensures r[i] == description[i] {
      assert UpperChar(description[i]) == Upper(description)[i];
    }
  }

  /** In all-lower-case text, each letter after ". " is capitalised. */
  lemma FormatDescriptionTextCapitalizesSentences(description: string, k: nat)
    requires description != [] && description == Lower(description)
    requires k < |description| && AfterSentenceBreak(description, k)
    ensures FormatDescriptionText(description)[k] == UpperChar(description[k])
  {
    var c := CapitalizeSentences(description);
    CapitalizeSentencesAt(description, k);
    UppercaseAbbreviationsOnlyUppercases(c);
  }

  /** Splitting after a non-word character splits the scan. */
  lemma {:induction false} ScanWordsSplit(a: string, b: string, f: string -> string)
    requires a == [] || !IsWordChar(a[|a| - 1])
    ensures ScanWords(a + b, f) == ScanWords(a, f) + ScanWords(b, f)
    decreases |a|
  {
    if a == [] {
      assert a + b == b;
    } else {
      var n := if IsWordChar(a[0]) then WordLength(a) else 1;
      if IsWordChar(a[0]) {
        if n == |a| {
          WordLengthRun(a, |a| - 1);
        }
        WordLengthPrefix(a, b);
      }
      var head, tail := a[..n], a[n..];
      assert (a + b)[..n] == head && (a + b)[n..] == tail + b;
      ScanWordsSplit(tail, b, f);
    }
  }

  lemma UppercaseAbbreviationsSplit(a: string, b: string)
    requires a == [] || !IsWordChar(a[|a| - 1])
    ensures UppercaseAbbreviations(a + b) == UppercaseAbbreviations(a) + UppercaseAbbreviations(b)
  {
    ScanWordsSplit(a, b, ReplaceWord);
  }

  lemma {:induction false} WordLengthPrefix(a: string, b: string)
    requires WordLength(a) < |a|
    ensures WordLength(a + b) == WordLength(a)
    decreases |a|
  {
    if IsWordChar(a[0]) {
      assert (a + b)[1..] == a[1..] + b;
      WordLengthPrefix(a[1..], b);
    }
  }

  /** The word characters of `w` followed by a non-word character or the end. */
  lemma UppercaseAbbreviationsWord(w: string, rest: string)
    requires IsCommonAbbreviation(w)
    requires rest == [] || !IsWordChar(rest[0])
    ensures UppercaseAbbreviations(w + rest) == Upper(w) + UppercaseAbbreviations(rest)
  {
    var s := w + rest;
    assert WordLength(s) == |w| by {
      WordLengthAll(w, rest);
    }
    assert s[..|w|] == w && s[|w|..] == rest;
  }

  lemma {:induction false} WordLengthAll(w: string, rest: string)
    requires forall i :: 0 <= i < |w| ==> IsWordChar(w[i])
    requires rest == [] || !IsWordChar(rest[0])
    ensures WordLength(w + rest) == |w|
    decreases |w|
  {
    if w != [] {
      assert (w + rest)[1..] == w[1..] + rest;
      WordLengthAll(w[1..], rest);
    } else {
      assert w + rest == rest;
    }
  }

  /** The sentence scan never turns a non-word character into a word
      character. */
  lemma CapitalizeSentencesNonWord(s: string, k: nat)
    requires k < |s| && !IsWordChar(s[k])
    ensures !IsWordChar(CapitalizeSentences(s)[k])
  {
    CapitalizeSentencesAt(s, k);
  }

  /** The sentence scan leaves alone a run of word characters that does not
      follow ". ". */
  lemma CapitalizeSentencesKeepsRun(s: string, b: nat, m: nat)
    requires b < m <= |s| && forall i :: b <= i < m ==> IsWordChar(s[i])
    requires !(b >= 2 && s[b - 2] == '.' && s[b - 1] == ' ')
    ensures forall k :: b <= k < m ==> CapitalizeSentences(s)[k] == s[k]
  {
    forall k | b <= k < m ensures CapitalizeSentences(s)[k] == s[k] {
      CapitalizeSentencesAt(s, k);
      if k > b {
        assert IsWordChar(s[k - 1]);
      }
    }
  }

  /** The sentence scan leaves alone a word that does not follow ". ",
      together with the non-word characters around it. */
  lemma CapitalizeSentencesKeepsWord(before: string, word: string, after: string)
    requires word != [] && forall i :: 0 <= i < |word| ==> IsWordChar(word[i])
    requires before == [] || !IsWordChar(before[|before| - 1])
    requires !(|before| >= 2 && before[|before| - 2] == '.' && before[|before| - 1] == ' ')
    requires after == [] || !IsWordChar(after[0])
    ensures var c, b, m := CapitalizeSentences(before + word + after), |before|, |before| + |word|;
      && c == c[..b] + word + c[m..]
      && (b == 0 || !IsWordChar(c[b - 1]))
      && (m == |c| || !IsWordChar(c[m]))
  {
    var s := before + word + after;
    var c := CapitalizeSentences(s);
    var b, m := |before|, |before| + |word|;
    assert forall i :: b <= i < m ==> IsWordChar(s[i]) by {
      forall i | b <= i < m ensures IsWordChar(s[i]) {
        assert s[i] == word[i - b];
      }
    }
    assert b >= 2 ==> s[b - 2] == before[b - 2] && s[b - 1] == before[b - 1];
    CapitalizeSentencesKeepsRun(s, b, m);
    assert forall k :: b <= k < m ==> s[k] == word[k - b];
    if b > 0 {
      assert s[b - 1] == before[b - 1];
      CapitalizeSentencesNonWord(s, b - 1);
    }
    if m < |c| {
      assert s[m] == after[0];
      CapitalizeSentencesNonWord(s, m);
    }
    WordInPlace(c, s, word, b, m);
  }

  /** A stretch of `c` that agrees with `s`, where `s` holds `word`,
      holds `word`. */
  lemma WordInPlace(c: string, s: string, word: string, b: nat, m: nat)
    requires b <= m <= |c| && m <= |s| && m - b == |word|
    requires forall k :: b <= k < m ==> c[k] == s[k]
    requires forall k :: b <= k < m ==> s[k] == word[k - b]
    ensures c == c[..b] + word + c[m..]
  {
    assert c[b..m] == word;
    SliceAround(c, b, m);
  }

  lemma SliceAround(c: string, b: nat, m: nat)
    requires b <= m <= |c|
    ensures c == c[..b] + c[b..m] + c[m..]
  {
  }

  /** A common abbreviation standing as a whole word is upper-cased by the
      abbreviation scan. */
  lemma UppercaseAbbreviationsWhole(x: string, word: string, y: string)
    requires IsCommonAbbreviation(word)
    requires x == [] || !IsWordChar(x[|x| - 1])
    requires y == [] || !IsWordChar(y[0])
    ensures UppercaseAbbreviations(x + word + y)[|x|..|x| + |word|] == Upper(word)
  {
    assert x + word + y == x + (word + y);
    UppercaseAbbreviationsSplit(x, word + y);
    UppercaseAbbreviationsWord(word, y);
    var p, q := UppercaseAbbreviations(x), UppercaseAbbreviations(y);
    assert UppercaseAbbreviations(x + word + y) == p + (Upper(word) + q);
    assert (p + (Upper(word) + q))[|x|..|x| + |word|] == Upper(word);
  }

  /** Text in one case goes through both scans before its first letter is
      capitalised. */
  lemma FormatDescriptionTextSingleCase(description: string)
    requires description != []
    requires description == Lower(description) || description == Upper(description)
    ensures FormatDescriptionText(description)
      == UppercaseFirstLetter(UppercaseAbbreviations(CapitalizeSentences(description)))
  {
  }

  /** Capitalising the first letter keeps an upper-cased abbreviation. */
  lemma UppercaseFirstLetterKeeps(u: string, b: nat, word: string)
    requires IsCommonAbbreviation(word) && b + |word| <= |u|
    requires u[b..b + |word|] == Upper(word)
    ensures UppercaseFirstLetter(u)[b..b + |word|] == Upper(word)
  {
    if b == 0 {
      assert u[0] == Upper(word)[0];
    }
  }

  /** The two scans upper-case a whole-word abbreviation that does not
      follow ". ". */
  lemma ScansUppercaseAbbreviation(before: string, word: string, after: string)
    requires IsCommonAbbreviation(word)
    requires before == [] || !IsWordChar(before[|before| - 1])
    requires !(|before| >= 2 && before[|before| - 2] == '.' && before[|before| - 1] == ' ')
    requires after == [] || !IsWordChar(after[0])
    ensures var u := UppercaseAbbreviations(CapitalizeSentences(before + word + after));
      u[|before|..|before| + |word|] == Upper(word)
  {
    var c := CapitalizeSentences(before + word + after);
    var b, m := |before|, |before| + |word|;
    CapitalizeSentencesKeepsWord(before, word, after);
    UppercaseAbbreviationsWhole(c[..b], word, c[m..]);
  }

  /** In all-lower-case text, a whole word that is a common abbreviation
      and does not start a sentence is fully upper-cased. */
  lemma FormatDescriptionTextAbbreviation(before: string, word: string, after: string)
    requires IsCommonAbbreviation(word)
    requires before == [] || !IsWordChar(before[|before| - 1])
    requires !(|before| >= 2 && before[|before| - 2] == '.' && before[|before| - 1] == ' ')
    requires after == [] || !IsWordChar(after[0])
    requires before + word + after == Lower(before + word + after)
    ensures var r := FormatDescriptionText(before + word + after);
      r[|before|..|before| + |word|] == Upper(word)
  {
    var s := before + word + after;
    ScansUppercaseAbbreviation(before, word, after);
    FormatDescriptionTextSingleCase(s);
    UppercaseFirstLetterKeeps(UppercaseAbbreviations(CapitalizeSentences(s)), |before|, word);
  }
}
