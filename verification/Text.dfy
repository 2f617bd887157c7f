/** Text handling shared by server and client: white space, digits, mobile numbers, card
    numbers and IBANs, and the forms in which the pages show them again. */
module Text {
  import opened Wrappers

  // ---------------------------------------------------------------- white space and prefixes

  /** Unicode's White_Space property, as Go's unicode.IsSpace reports it. */
  predicate IsSpace(c: char) {
    || '\t' <= c <= '\r'
    || c in {' ', '\U{85}', '\U{A0}', '\U{1680}', '\U{2028}', '\U{2029}', '\U{202F}', '\U{205F}', '\U{3000}'}
    || '\U{2000}' <= c <= '\U{200A}'
  }

  function TrimLeft(s: string): string {
    if s != "" && IsSpace(s[0]) then TrimLeft(s[1..]) else s
  }

  function TrimRight(s: string): string {
    if s != "" && IsSpace(s[|s| - 1]) then TrimRight(s[..|s| - 1]) else s
  }

  function Trim(s: string): string {
    TrimRight(TrimLeft(s))
  }

  lemma {:induction false} TrimLeftEdge(s: string)
    ensures TrimLeft(s) == "" || !IsSpace(TrimLeft(s)[0])
  {
    if s != "" && IsSpace(s[0]) {
      TrimLeftEdge(s[1..]);
    }
  }

  lemma {:induction false} TrimRightEdge(s: string)
    ensures TrimRight(s) <= s
    ensures TrimRight(s) == "" || !IsSpace(TrimRight(s)[|TrimRight(s)| - 1])
  {
    if s != "" && IsSpace(s[|s| - 1]) {
      TrimRightEdge(s[..|s| - 1]);
    }
  }

  lemma TrimTwice(s: string)
    ensures Trim(Trim(s)) == Trim(s)
  {
    hide IsSpace;
    TrimLeftEdge(s);
    TrimRightEdge(TrimLeft(s));
  }

  predicate HasPrefix(s: string, prefix: string) {
    |prefix| <= |s| && s[..|prefix|] == prefix
  }

  function TrimPrefix(s: string, prefix: string): string {
    if HasPrefix(s, prefix) then s[|prefix|..] else s
  }

  /** Bytes of the UTF-8 form: what Go's len counts. */
  function ByteLength(s: string): nat {
    if s == "" then 0
    else (if s[0] < '\U{80}' then 1 else if s[0] < '\U{800}' then 2 else if s[0] < '\U{10000}' then 3 else 4)
         + ByteLength(s[1..])
  }

  lemma {:induction false} ByteLengthOfDigits(s: string)
    requires AllDigits(s)
    ensures ByteLength(s) == |s|
  {
    if s != "" {
      ByteLengthOfDigits(s[1..]);
    }
  }

  // ---------------------------------------------------------------- digits

  predicate IsDigit(c: char) { '0' <= c <= '9' }
  predicate IsPersianDigit(c: char) { '\U{6F0}' <= c <= '\U{6F9}' }
  predicate IsArabicDigit(c: char) { '\U{660}' <= c <= '\U{669}' }
  predicate AllDigits(s: string) { forall i :: 0 <= i < |s| ==> IsDigit(s[i]) }

  /** The server's rune mapping; None drops the rune. */
  function LatinDigit(c: char): Option<char> {
    if IsPersianDigit(c) then Some(('0' as int + c as int - 0x6F0) as char)
    else if IsArabicDigit(c) then Some(('0' as int + c as int - 0x660) as char)
    else if IsDigit(c) then Some(c)
    else None
  }

  /** The server's one-pass normaliser. */
  function NormalizeDigits(s: string): (r: string)
    ensures AllDigits(r)
  {
    if s == "" then ""
    else match LatinDigit(s[0])
      case Some(d) => [d] + NormalizeDigits(s[1..])
      case None => NormalizeDigits(s[1..])
  }

  const LATIN: string := "0123456789"
  const PERSIAN: string := "\U{6F0}\U{6F1}\U{6F2}\U{6F3}\U{6F4}\U{6F5}\U{6F6}\U{6F7}\U{6F8}\U{6F9}"
  const ARABIC: string := "\U{660}\U{661}\U{662}\U{663}\U{664}\U{665}\U{666}\U{667}\U{668}\U{669}"

  function IndexOf(s: string, c: char): (i: nat)
    ensures i <= |s|
    ensures i < |s| ==> s[i] == c
    ensures forall j :: 0 <= j < i ==> s[j] != c
  {
    if s == "" || s[0] == c then 0 else 1 + IndexOf(s[1..], c)
  }

  /** One character of a client pass: a character of the alphabet becomes the Latin digit at its index. */
  function ReplaceDigit(c: char, alphabet: string): char
    requires |alphabet| == 10
  {
    var i := IndexOf(alphabet, c);
    if i < 10 then LATIN[i] else c
  }

  /** One client pass over a string. */
  function ReplaceAlphabet(s: string, alphabet: string): (r: string)
    requires |alphabet| == 10
    ensures |r| == |s|
  {
    if s == "" then ""
    else [ReplaceDigit(s[0], alphabet)] + ReplaceAlphabet(s[1..], alphabet)
  }

  /** The client's last pass: remove everything that is not an ASCII digit. */
  function KeepDigits(s: string): string {
    if s == "" then ""
    else (if IsDigit(s[0]) then [s[0]] else []) + KeepDigits(s[1..])
  }

  function ClientNormalizeDigits(s: string): string {
    KeepDigits(ReplaceAlphabet(ReplaceAlphabet(s, PERSIAN), ARABIC))
  }

  lemma AlphabetIndex(c: char)
    ensures IndexOf(PERSIAN, c) == if IsPersianDigit(c) then c as int - 0x6F0 else 10
    ensures IndexOf(ARABIC, c) == if IsArabicDigit(c) then c as int - 0x660 else 10
  {
    assert forall i :: 0 <= i < 10 ==> PERSIAN[i] as int == 0x6F0 + i;
    assert forall i :: 0 <= i < 10 ==> ARABIC[i] as int == 0x660 + i;
    if IsPersianDigit(c) { assert PERSIAN[c as int - 0x6F0] == c; }
    if IsArabicDigit(c) { assert ARABIC[c as int - 0x660] == c; }
  }

  lemma LatinAt(i: nat)
    requires i < 10
    ensures LATIN[i] as int == '0' as int + i
  {
  }

  lemma PersianReplaced(c: char)
    ensures ReplaceDigit(c, PERSIAN) == if IsPersianDigit(c) then ('0' as int + c as int - 0x6F0) as char else c
  {
    AlphabetIndex(c);
    hide IndexOf;
    if IsPersianDigit(c) { LatinAt(c as int - 0x6F0); }
  }

  lemma ArabicReplaced(c: char)
    ensures ReplaceDigit(c, ARABIC) == if IsArabicDigit(c) then ('0' as int + c as int - 0x660) as char else c
  {
    AlphabetIndex(c);
    hide IndexOf;
    if IsArabicDigit(c) { LatinAt(c as int - 0x660); }
  }

  lemma DigitAgrees(c: char)
    ensures var d := ReplaceDigit(ReplaceDigit(c, PERSIAN), ARABIC);
            if LatinDigit(c).Some? then d == LatinDigit(c).value && IsDigit(d) else !IsDigit(d)
  {
    hide ReplaceDigit;
    PersianReplaced(c);
    ArabicReplaced(ReplaceDigit(c, PERSIAN));
  }

  /** The client's three passes compute what the server's single pass computes, on every string. */
  lemma {:induction false} DigitNormalisersAgree(s: string)
    ensures ClientNormalizeDigits(s) == NormalizeDigits(s)
  {
    if s != "" {
      DigitNormalisersAgree(s[1..]);
      var a := ReplaceAlphabet(s, PERSIAN);
      var b := ReplaceAlphabet(a, ARABIC);
      assert a[1..] == ReplaceAlphabet(s[1..], PERSIAN);
      assert b[1..] == ReplaceAlphabet(a[1..], ARABIC);
      DigitAgrees(s[0]);
      hide ReplaceDigit, LatinDigit;
    }
  }

  lemma {:induction false} NormalizeDigitsFixes(s: string)
    requires AllDigits(s)
    ensures NormalizeDigits(s) == s
  {
    if s != "" {
      NormalizeDigitsFixes(s[1..]);
    }
  }

  lemma {:induction false} NormalizeDigitsConcat(a: string, b: string)
    ensures NormalizeDigits(a + b) == NormalizeDigits(a) + NormalizeDigits(b)
  {
    if a == "" {
      assert a + b == b;
    } else {
      NormalizeDigitsConcat(a[1..], b);
      hide LatinDigit, AllDigits;
      assert (a + b)[1..] == a[1..] + b && (a + b)[0] == a[0];
    }
  }

  // ---------------------------------------------------------------- mobile numbers

  function NormalizeMobile(s: string): string {
    var digits := NormalizeDigits(s);
    if HasPrefix(digits, "0098") then "0" + digits[4..]
    else if HasPrefix(digits, "98") then "0" + digits[2..]
    else digits
  }

  /** The client's copy. */
  function ClientNormalizeMobile(s: string): string {
    var digits := ClientNormalizeDigits(s);
    if HasPrefix(digits, "0098") then "0" + digits[4..]
    else if HasPrefix(digits, "98") then "0" + digits[2..]
    else digits
  }

  lemma MobileNormalisersAgree(s: string)
    ensures ClientNormalizeMobile(s) == NormalizeMobile(s)
  {
    DigitNormalisersAgree(s);
  }

  predicate IsMobile(s: string) { AllDigits(s) && |s| == 11 && HasPrefix(s, "09") }

  lemma PrefixByIndex(s: string, prefix: string)
    ensures HasPrefix(s, prefix) <==> |prefix| <= |s| && forall i :: 0 <= i < |prefix| ==> s[i] == prefix[i]
  {
    if HasPrefix(s, prefix) {
      assert forall i :: 0 <= i < |prefix| ==> s[i] == s[..|prefix|][i];
    }
  }

  /** Normalising twice differs from normalising once exactly when stripping the country code
      uncovers a second one. */
  lemma MobileNormaliserIdempotentIff(s: string)
    ensures NormalizeMobile(NormalizeMobile(s)) == NormalizeMobile(s)
            <==> !(HasPrefix(NormalizeDigits(s), "0098098") || HasPrefix(NormalizeDigits(s), "98098"))
  {
    var d := NormalizeDigits(s);
    var m := NormalizeMobile(s);
    NormalizeDigitsFixes(m);
    assert NormalizeMobile(m) == m <==> !HasPrefix(m, "0098") by {
      NormalizedHasNoShortCode(s);
    }
    SecondCode(s);
  }

  lemma DigitsStay(prefix: string, rest: string)
    requires AllDigits(prefix) && AllDigits(rest)
    ensures NormalizeDigits(prefix + rest) == prefix + rest
  {
    NormalizeDigitsFixes(prefix + rest);
  }

  lemma StripLong(rest: string)
    requires AllDigits(rest)
    ensures NormalizeMobile("0098" + rest) == "0" + rest
  {
    var d := "0098" + rest;
    DigitsStay("0098", rest);
    hide NormalizeDigits, AllDigits;
    assert d[..4] == "0098" && d[4..] == rest;
  }

  lemma StripShort(rest: string)
    requires AllDigits(rest)
    ensures NormalizeMobile("98" + rest) == "0" + rest
  {
    var d := "98" + rest;
    DigitsStay("98", rest);
    hide NormalizeDigits, AllDigits;
    assert d[..2] == "98" && d[2..] == rest;
    PrefixByIndex(d, "0098");
  }

  /** A country code behind a country code: the second pass strips what the first one uncovered. */
  lemma SecondPassStripsAgain(rest: string)
    requires AllDigits(rest)
    ensures NormalizeMobile("98098" + rest) == "0098" + rest
    ensures NormalizeMobile(NormalizeMobile("98098" + rest)) == "0" + rest
  {
    StripShort("098" + rest);
    StripLong(rest);
    hide NormalizeMobile, AllDigits;
    assert "98" + ("098" + rest) == "98098" + rest && "0" + ("098" + rest) == "0098" + rest;
  }

  /** So an input like this one, not a valid number, changes twice. */
  lemma MobileNormaliserNotIdempotent()
    ensures NormalizeMobile("98098" + "9121234567") == "0098" + "9121234567"
    ensures NormalizeMobile("0098" + "9121234567") == "0" + "9121234567"
  {
    SecondPassStripsAgain("9121234567");
  }

  lemma NormalizedHasNoShortCode(s: string)
    ensures !HasPrefix(NormalizeMobile(s), "98")
  {
    var d := NormalizeDigits(s);
    var m := NormalizeMobile(s);
    if HasPrefix(d, "0098") || HasPrefix(d, "98") {
      assert m[0] == '0' != "98"[0];
      PrefixByIndex(m, "98");
    }
  }

  lemma CountryCodes(d: string)
    ensures HasPrefix(d, "98") <==> |d| >= 2 && d[0] == '9' && d[1] == '8'
    ensures HasPrefix(d, "0098") <==> |d| >= 4 && d[0] == '0' && d[1] == '0' && d[2] == '9' && d[3] == '8'
    ensures HasPrefix(d, "98098") <==> |d| >= 5 && HasPrefix(d, "98") && d[2] == '0' && d[3] == '9' && d[4] == '8'
    ensures HasPrefix(d, "0098098") <==> |d| >= 7 && HasPrefix(d, "0098") && d[4] == '0' && d[5] == '9' && d[6] == '8'
  {
    PrefixByIndex(d, "98");
    PrefixByIndex(d, "0098");
    PrefixByIndex(d, "98098");
    PrefixByIndex(d, "0098098");
  }

  lemma SecondCode(s: string)
    ensures HasPrefix(NormalizeMobile(s), "0098")
            <==> HasPrefix(NormalizeDigits(s), "0098098") || HasPrefix(NormalizeDigits(s), "98098")
  {
    CountryCodes(NormalizeDigits(s));
    CountryCodes(NormalizeMobile(s));
  }

  /** signup.go: the accepted mobile number, or the empty string. */
  function ValidMobile(s: string): string {
    var m := NormalizeMobile(s);
    if ByteLength(m) != 11 || !HasPrefix(m, "09") then "" else m
  }

  lemma MobileFixes(m: string)
    requires IsMobile(m)
    ensures NormalizeMobile(m) == m && ValidMobile(m) == m
  {
    NormalizeDigitsFixes(m);
    ByteLengthOfDigits(m);
    PrefixByIndex(m, "09");
    PrefixByIndex(m, "0098");
    PrefixByIndex(m, "98");
  }

  /** What is accepted is a canonical mobile number, and accepting it again changes nothing. */
  lemma ValidMobileIdempotent(s: string)
    ensures ValidMobile(s) != "" ==> IsMobile(ValidMobile(s)) && ValidMobile(ValidMobile(s)) == ValidMobile(s)
    ensures ValidMobile(s) == "" <==> !IsMobile(NormalizeMobile(s))
  {
    var m := NormalizeMobile(s);
    assert AllDigits(m);
    ByteLengthOfDigits(m);
    if ValidMobile(s) != "" {
      MobileFixes(m);
    }
  }

  /** The stored WhatsApp number for a form value: blank clears it, None is a rejection. */
  function SaveWhatsApp(form: string): Option<string> {
    if Trim(form) == "" then Some("")
    else
      var m := NormalizeMobile(form);
      if ByteLength(m) != 11 || !HasPrefix(m, "09") then None else Some("98" + m[1..])
  }

  /** The form value the account page shows for a stored number. */
  function ShowWhatsApp(stored: string): string {
    if stored == "" then "" else "+" + stored
  }

  /** Saving what the page shows stores the same number again, whatever was typed first. */
  lemma WhatsAppRoundTrip(form: string)
    requires SaveWhatsApp(form).Some?
    ensures SaveWhatsApp(ShowWhatsApp(SaveWhatsApp(form).value)) == SaveWhatsApp(form)
  {
    var stored := SaveWhatsApp(form).value;
    if Trim(form) == "" {
      assert stored == "";
    } else {
      var m := NormalizeMobile(form);
      ByteLengthOfDigits(m);
      assert stored == "98" + m[1..] && AllDigits(stored);
      var shown := "+" + stored;
      NormalizeDigitsFixes(stored);
      assert shown[1..] == stored;
      assert LatinDigit('+') == None;
      assert NormalizeDigits(shown) == stored;
      assert !HasPrefix(stored, "0098") by { PrefixByIndex(stored, "0098"); }
      assert HasPrefix(stored, "98") && stored[2..] == m[1..];
      assert m[0] == m[..2][0] == '0';
      assert NormalizeMobile(shown) == "0" + m[1..] == m;
      TrimKeepsInk(shown, 0);
    }
  }

  /** Trimming a text that has a visible character leaves something. */
  lemma {:induction false} TrimKeepsInk(s: string, i: nat)
    requires i < |s| && !IsSpace(s[i])
    ensures Trim(s) != ""
  {
    TrimLeftKeepsInk(s, i);
    var t := TrimLeft(s);
    TrimRightKeepsInk(t, 0);
  }

  lemma {:induction false} TrimLeftKeepsInk(s: string, i: nat)
    requires i < |s| && !IsSpace(s[i])
    ensures TrimLeft(s) != "" && !IsSpace(TrimLeft(s)[0])
  {
    if IsSpace(s[0]) {
      TrimLeftKeepsInk(s[1..], i - 1);
    }
  }

  lemma {:induction false} TrimRightKeepsInk(s: string, i: nat)
    requires i < |s| && !IsSpace(s[i])
    ensures TrimRight(s) != ""
  {
    if IsSpace(s[|s| - 1]) {
      TrimRightKeepsInk(s[..|s| - 1], i);
    }
  }

  // ---------------------------------------------------------------- card numbers and IBANs

  /** payment_cards.go: separators and the three digit alphabets only, sixteen digits in all. */
  function NormalizeCard(s: string): Option<string> {
    if exists i :: 0 <= i < |s| && s[i] != '-' && !IsSpace(s[i]) && LatinDigit(s[i]).None? then None
    else
      var n := NormalizeDigits(s);
      if ByteLength(n) == 16 then Some(n) else None
  }

  /** The characters one rune contributes to the builder; None stops with a rejection. */
  function IBANRune(c: char): Option<string> {
    if c == '-' || IsSpace(c) then Some("")
    else if c == 'i' || c == 'I' then Some("I")
    else if c == 'r' || c == 'R' then Some("R")
    else match LatinDigit(c)
      case Some(d) => Some([d])
      case None => None
  }

  function Glue(a: Option<string>, b: Option<string>): Option<string> {
    if a.Some? && b.Some? then Some(a.value + b.value) else None
  }

  function BuildIBAN(s: string): Option<string> {
    if s == "" then Some("") else Glue(IBANRune(s[0]), BuildIBAN(s[1..]))
  }

  predicate IsIBAN(s: string) {
    |s| == 26 && HasPrefix(s, "IR") && AllDigits(s[2..])
  }

  function NormalizeIBAN(s: string): Option<string> {
    if Trim(s) == "" then Some("")
    else match BuildIBAN(s)
      case None => None
      case Some(iban) => if IsIBAN(iban) then Some(iban) else None
  }

  /** The builder loop of payment_cards.go, which returns at the first foreign rune. */
  method BuildIBANLoop(s: string) returns (r: Option<string>)
    ensures r == BuildIBAN(s)
  {
    var built := "";
    assert s[0..] == s;
    for i := 0 to |s|
      invariant BuildIBAN(s).Some? <==> BuildIBAN(s[i..]).Some?
      invariant BuildIBAN(s).Some? ==> BuildIBAN(s).value == built + BuildIBAN(s[i..]).value
    {
      assert s[i..][0] == s[i] && s[i..][1..] == s[i + 1..];
      match IBANRune(s[i])
      case None =>
        return None;
      case Some(a) =>
        ghost var rest := BuildIBAN(s[i + 1..]);
        assert rest.Some? ==> built + (a + rest.value) == (built + a) + rest.value;
        built := built + a;
    }
    assert s[|s|..] == "";
    assert built + "" == built;
    r := Some(built);
  }

  predicate IsLineTerminator(c: char) { c in {'\n', '\r', '\U{2028}', '\U{2029}'} }

  /** Length of the longest prefix of at most n characters that the regular expression dot matches. */
  function DotRun(s: string, n: nat): (k: nat)
    ensures k <= |s| && k <= n
  {
    if n == 0 || s == "" || IsLineTerminator(s[0]) then 0 else 1 + DotRun(s[1..], n - 1)
  }

  /** The matches of the page's pattern of one to four characters, left to right. */
  function Chunks(s: string): seq<string>
    decreases |s|
  {
    if s == "" then []
    else
      var k := DotRun(s, 4);
      if k == 0 then Chunks(s[1..]) else [s[..k]] + Chunks(s[k..])
  }

  function JoinWithSpace(parts: seq<string>): string {
    if parts == [] then ""
    else if |parts| == 1 then parts[0]
    else parts[0] + " " + JoinWithSpace(parts[1..])
  }

  /** formatCardNumber and formatIBAN: groups of four, or the value itself when nothing matches. */
  function GroupByFour(s: string): string {
    if Chunks(s) == [] then s else JoinWithSpace(Chunks(s))
  }

  /** Text whose characters all survive the page's grouping pattern. */
  predicate OneLine(s: string) { forall i :: 0 <= i < |s| ==> !IsLineTerminator(s[i]) }

  lemma {:induction false} DotRunFull(s: string, n: nat)
    requires OneLine(s)
    ensures DotRun(s, n) == if |s| < n then |s| else n
  {
    if n > 0 && s != "" {
      DotRunFull(s[1..], n - 1);
    }
  }

  function Concat(parts: seq<string>): string {
    if parts == [] then "" else parts[0] + Concat(parts[1..])
  }

  /** The groups are the text cut after every fourth character: nothing lost, nothing moved. */
  lemma {:induction false} GroupingLosesNothing(s: string)
    requires OneLine(s)
    ensures Concat(Chunks(s)) == s
    ensures forall i :: 0 <= i < |Chunks(s)| ==> 1 <= |Chunks(s)[i]| <= 4
    ensures forall i :: 0 <= i < |Chunks(s)| - 1 ==> |Chunks(s)[i]| == 4
    decreases |s|
  {
    if s != "" {
      DotRunFull(s, 4);
      var k := DotRun(s, 4);
      GroupingLosesNothing(s[k..]);
      assert s == s[..k] + s[k..];
    }
  }

  lemma GlueAssociates(a: Option<string>, b: Option<string>, c: Option<string>)
    ensures Glue(a, Glue(b, c)) == Glue(Glue(a, b), c)
  {
    if a.Some? && b.Some? && c.Some? {
      assert a.value + (b.value + c.value) == (a.value + b.value) + c.value;
    }
  }

  lemma GlueEmpty(a: Option<string>)
    ensures Glue(Some(""), a) == a
  {
    if a.Some? { assert "" + a.value == a.value; }
  }

  lemma {:induction false} BuildIBANConcat(a: string, b: string)
    ensures BuildIBAN(a + b) == Glue(BuildIBAN(a), BuildIBAN(b))
  {
    hide IBANRune, Glue;
    if a == "" {
      assert a + b == b;
      GlueEmpty(BuildIBAN(b));
    } else {
      BuildIBANConcat(a[1..], b);
      assert (a + b)[0] == a[0] && (a + b)[1..] == a[1..] + b;
      GlueAssociates(IBANRune(a[0]), BuildIBAN(a[1..]), BuildIBAN(b));
    }
  }

  /** Grouping inserts separators only: both normalisers see through it. */
  lemma {:induction false} GroupingIsTransparent(s: string)
    requires OneLine(s)
    ensures NormalizeDigits(JoinWithSpace(Chunks(s))) == NormalizeDigits(s)
    ensures BuildIBAN(JoinWithSpace(Chunks(s))) == BuildIBAN(s)
    ensures s != "" ==> Chunks(s) != [] && Chunks(s)[0] != ""
    ensures forall i :: 0 <= i < |JoinWithSpace(Chunks(s))| ==>
            JoinWithSpace(Chunks(s))[i] in s || JoinWithSpace(Chunks(s))[i] == ' '
    decreases |s|
  {
    if s != "" {
      var k := DotRun(s, 4);
      DotRunFull(s, 4);
      assert k >= 1 && s == s[..k] + s[k..];
      NormalizeDigitsConcat(s[..k], s[k..]);
      BuildIBANConcat(s[..k], s[k..]);
      if s[k..] == "" {
        assert s[..k] == s;
        assert Chunks(s) == [s];
      } else {
        GroupingIsTransparent(s[k..]);
        var rest := JoinWithSpace(Chunks(s[k..]));
        assert Chunks(s)[1..] == Chunks(s[k..]);
        var joined := JoinWithSpace(Chunks(s));
        assert joined == s[..k] + (" " + rest);
        NormalizeDigitsConcat(s[..k], " " + rest);
        BuildIBANConcat(s[..k], " " + rest);
        SpaceIsDropped(rest);
        forall i | 0 <= i < |joined| ensures joined[i] in s || joined[i] == ' ' {
          if i < k { assert joined[i] == s[i]; }
          else if i > k { assert joined[i] == rest[i - k - 1]; }
        }
      }
    }
  }

  lemma SpaceIsDropped(rest: string)
    ensures NormalizeDigits(" " + rest) == NormalizeDigits(rest)
    ensures BuildIBAN(" " + rest) == BuildIBAN(rest)
  {
    assert (" " + rest)[1..] == rest;
    assert LatinDigit(' ') == None;
    if BuildIBAN(rest).Some? { assert "" + BuildIBAN(rest).value == BuildIBAN(rest).value; }
  }

  /** normalise(group(x)) == x for every canonical card number. */
  lemma CardRoundTrip(x: string)
    requires AllDigits(x) && |x| == 16
    ensures NormalizeCard(GroupByFour(x)) == Some(x)
  {
    GroupingIsTransparent(x);
    NormalizeDigitsFixes(x);
    ByteLengthOfDigits(x);
  }

  lemma {:induction false} BuildIBANFixesDigits(s: string)
    requires AllDigits(s)
    ensures BuildIBAN(s) == Some(s)
  {
    if s != "" {
      BuildIBANFixesDigits(s[1..]);
      assert IBANRune(s[0]) == Some([s[0]]);
      assert [s[0]] + s[1..] == s;
    }
  }

  lemma BuildIBANFixes(x: string)
    requires IsIBAN(x)
    ensures BuildIBAN(x) == Some(x)
  {
    assert x == "IR" + x[2..];
    BuildIBANFixesDigits(x[2..]);
    BuildIBANConcat("IR", x[2..]);
    assert BuildIBAN("IR") == Some("IR") by {
      BuildIBANConcat("I", "R");
      assert "IR" == "I" + "R";
      BuildIBANOne('I');
      BuildIBANOne('R');
    }
  }

  lemma BuildIBANOne(c: char)
    requires c == 'I' || c == 'R'
    ensures BuildIBAN([c]) == Some([c])
  {
    assert [c][1..] == "";
    assert [c] + "" == [c];
  }

  lemma {:induction false} IBANInk(x: string)
    requires IsIBAN(x)
    ensures OneLine(x) && Trim(GroupByFour(x)) != "" && Trim(x) != ""
  {
    assert x[0] == x[..2][0] == 'I' && x[1] == x[..2][1] == 'R';
    assert forall i :: 2 <= i < |x| ==> x[i] == x[2..][i - 2];
    TrimKeepsInk(x, 0);
    DotRunFull(x, 4);
    var chunks := Chunks(x);
    assert chunks[0] == x[..4];
    var g := GroupByFour(x);
    assert |g| > 0 && g[0] == 'I';
    TrimKeepsInk(g, 0);
  }

  /** normalise(group(x)) == x for every canonical IBAN, and the empty IBAN stays empty. */
  lemma IBANRoundTrip(x: string)
    requires IsIBAN(x) || x == ""
    ensures NormalizeIBAN(GroupByFour(x)) == Some(x)
  {
    if x != "" {
      IBANInk(x);
      GroupingIsTransparent(x);
      BuildIBANFixes(x);
    }
  }

  /** An accepted IBAN is empty or canonical, and is accepted again unchanged. */
  lemma IBANIdempotent(s: string)
    requires NormalizeIBAN(s).Some?
    ensures NormalizeIBAN(s).value == "" || IsIBAN(NormalizeIBAN(s).value)
    ensures NormalizeIBAN(NormalizeIBAN(s).value) == NormalizeIBAN(s)
  {
    var x := NormalizeIBAN(s).value;
    if x != "" {
      IBANInk(x);
      BuildIBANFixes(x);
    }
  }

  /** An accepted card number is canonical, and is accepted again unchanged. */
  lemma CardIdempotent(s: string)
    requires NormalizeCard(s).Some?
    ensures AllDigits(NormalizeCard(s).value) && |NormalizeCard(s).value| == 16
    ensures NormalizeCard(NormalizeCard(s).value) == NormalizeCard(s)
  {
    var x := NormalizeCard(s).value;
    ByteLengthOfDigits(x);
    NormalizeDigitsFixes(x);
  }

  // ---------------------------------------------------------------- what is accepted

  predicate AnyDigit(c: char) {
    '0' <= c <= '9' || '\U{660}' <= c <= '\U{669}' || '\U{6F0}' <= c <= '\U{6F9}'
  }

  lemma {:induction false} DigitsCounted(s: string)
    ensures |NormalizeDigits(s)| == |Digits(s)|
  {
    if s != "" {
      DigitsCounted(s[1..]);
    }
  }

  /** The digits of a text, in any of the three alphabets. */
  function Digits(s: string): string {
    if s == "" then "" else (if AnyDigit(s[0]) then [s[0]] else "") + Digits(s[1..])
  }

  /** A card number is sixteen digits of any alphabet, between which only dashes and white space stand. */
  lemma CardAcceptedIff(s: string)
    ensures NormalizeCard(s).Some? <==>
              |Digits(s)| == 16 && forall i :: 0 <= i < |s| ==> AnyDigit(s[i]) || s[i] == '-' || IsSpace(s[i])
    ensures NormalizeCard(s).Some? ==> NormalizeCard(s).value == NormalizeDigits(s)
  {
    hide IsSpace;
    ByteLengthOfDigits(NormalizeDigits(s));
    DigitsCounted(s);
    hide NormalizeDigits, Digits;
  }

  /** The characters an IBAN may be written with. */
  predicate IBANChar(c: char) {
    AnyDigit(c) || c == '-' || IsSpace(c) || c == 'i' || c == 'I' || c == 'r' || c == 'R'
  }

  lemma {:induction false} BuildsIff(s: string)
    ensures BuildIBAN(s).Some? <==> forall i :: 0 <= i < |s| ==> IBANChar(s[i])
    ensures BuildIBAN(s).Some? ==>
              forall i :: 0 <= i < |BuildIBAN(s).value| ==>
                IsDigit(BuildIBAN(s).value[i]) || BuildIBAN(s).value[i] == 'I' || BuildIBAN(s).value[i] == 'R'
  {
    hide IsSpace;
    if s != "" {
      BuildsIff(s[1..]);
      assert IBANRune(s[0]).Some? <==> IBANChar(s[0]);
      assert forall i :: 1 <= i < |s| ==> s[i] == s[1..][i - 1];
    }
  }

  /** A stored IBAN is empty, or IR and twenty-four digits; what is refused is a foreign character or a
      text that does not come out so. */
  lemma IBANAcceptedIff(s: string)
    ensures Trim(s) == "" ==> NormalizeIBAN(s) == Some("")
    ensures Trim(s) != "" ==>
              (NormalizeIBAN(s).Some? <==>
                 && (forall i :: 0 <= i < |s| ==> IBANChar(s[i])) && BuildIBAN(s).Some?
                 && var x := BuildIBAN(s).value;
                    |x| == 26 && x[0] == 'I' && x[1] == 'R' && forall i :: 2 <= i < 26 ==> '0' <= x[i] <= '9')
    ensures Trim(s) != "" && NormalizeIBAN(s).Some? ==> NormalizeIBAN(s) == BuildIBAN(s)
  {
    BuildsIff(s);
    hide Trim, IBANChar;
    if BuildIBAN(s).Some? {
      var x := BuildIBAN(s).value;
      PrefixByIndex(x, "IR");
      if |x| == 26 { assert forall i :: 2 <= i < 26 ==> x[i] == x[2..][i - 2]; }
    }
    hide BuildIBAN;
  }

  /** A WhatsApp form is stored as nothing when blank, as 98 and the number without its zero when it is
      a mobile number, and refused otherwise. */
  lemma WhatsAppAcceptedIff(form: string)
    ensures SaveWhatsApp(form) == if Trim(form) == "" then Some("")
                                  else if IsMobile(NormalizeMobile(form)) then Some("98" + NormalizeMobile(form)[1..])
                                  else None
  {
    ByteLengthOfDigits(NormalizeMobile(form));
    hide Trim, NormalizeMobile;
  }

  /** White space is cut off at both ends, all of it, and nothing else. */
  lemma TrimCutsTheEnds(s: string) returns (a: string, b: string)
    ensures s == a + Trim(s) + b
    ensures forall c :: c in a || c in b ==> IsSpace(c)
    ensures Trim(s) != "" ==> !IsSpace(Trim(s)[0]) && !IsSpace(Trim(s)[|Trim(s)| - 1])
  {
    hide IsSpace;
    a := LeftCut(s);
    b := RightCut(TrimLeft(s));
    TrimLeftEdge(s);
    TrimRightEdge(TrimLeft(s));
  }

  lemma {:induction false} LeftCut(s: string) returns (a: string)
    ensures s == a + TrimLeft(s) && forall c :: c in a ==> IsSpace(c)
  {
    a := "";
    if s != "" && IsSpace(s[0]) {
      var rest := LeftCut(s[1..]);
      a := [s[0]] + rest;
    }
  }

  lemma {:induction false} RightCut(s: string) returns (b: string)
    ensures s == TrimRight(s) + b && forall c :: c in b ==> IsSpace(c)
  {
    b := "";
    if s != "" && IsSpace(s[|s| - 1]) {
      var rest := RightCut(s[..|s| - 1]);
      b := rest + [s[|s| - 1]];
    }
  }

  /** Bytes exceed characters by what the characters beyond ASCII need: one more from U+0080 on, two from
      U+0800 on, three from U+10000 on. */
  lemma {:induction false} BytesCounted(s: string)
    ensures ByteLength(s) == |s| + |From(s, '\U{80}')| + |From(s, '\U{800}')| + |From(s, '\U{10000}')|
    ensures ByteLength(s) == |s| <==> forall i :: 0 <= i < |s| ==> s[i] < '\U{80}'
  {
    if s != "" {
      BytesCounted(s[1..]);
      assert forall i :: 1 <= i < |s| ==> s[i] == s[1..][i - 1];
    }
  }

  /** The characters of a text from a given one on. */
  function From(s: string, least: char): string {
    if s == "" then "" else (if s[0] >= least then [s[0]] else "") + From(s[1..], least)
  }

  /** What each character of an IBAN contributes; a text contributes what its characters do, in order
      (BuildIBANConcat). */
  lemma IBANByCharacter(c: char)
    ensures BuildIBAN([c]) == if c == '-' || IsSpace(c) then Some("")
                              else if c == 'i' || c == 'I' then Some("I")
                              else if c == 'r' || c == 'R' then Some("R")
                              else if AnyDigit(c) then Some(NormalizeDigits([c]))
                              else None
  {
    hide IsSpace;
    assert [c][1..] == "";
    assert IBANRune(c).Some? ==> IBANRune(c).value + "" == IBANRune(c).value;
    assert LatinDigit(c).Some? ==> NormalizeDigits([c]) == [LatinDigit(c).value] + "";
  }
}
