/**
 * Document-type classification of OCR text, as in
 * `KYCVerificationSystem.pan_card_extract_text_and_identify`.
 *
 * The OCR engine is an input: `Some(text)` is what it returned, `None` stands
 * for any exception raised while converting the image or reading it. The text
 * is normalised (upper-cased, U+0020 removed) and searched first for a PAN
 * number, and only if there is none for an Aadhaar number.
 */
module CardClassifier {
  import opened Wrappers

  datatype CardType = Pan | Aadhaar {
    /** The string the source stores under 'card_type'. */
    function Label(): string {
      match this
      case Pan => "PAN"
      case Aadhaar => "AADHAAR"
    }
  }

  /** The dictionary `{'card_type': ..., 'extracted_text': ...}`. */
  datatype CardInfo = CardInfo(cardType: Option<CardType>, extractedText: string)

  // Character classes of the regular expressions, over ASCII.

  predicate IsUpper(c: char) { 'A' <= c <= 'Z' }
  predicate IsLower(c: char) { 'a' <= c <= 'z' }
  predicate IsDigit(c: char) { '0' <= c <= '9' }

  /** Python's `\s` on ASCII: tab, line feed, vertical tab, form feed, carriage return (9-13), the separators U+001C-U+001F and the space (28-32). */
  predicate IsWhitespace(c: char) {
    9 <= c as int <= 13 || 28 <= c as int <= 32
  }

  /** `str.upper` on one ASCII character; every other character is left alone. */
  function UpperChar(c: char): (u: char)
    ensures !IsLower(u)
    ensures u == c || IsLower(c)
    ensures IsUpper(u) <==> IsUpper(c) || IsLower(c)
    ensures IsDigit(u) <==> IsDigit(c)
    ensures u == ' ' <==> c == ' '
  {
    if IsLower(c) then (c as int - 32) as char else c
  }

  /** `str.upper` on a string. */
  function ToUpper(s: string): (r: string)
    ensures |r| == |s|
    ensures forall i :: 0 <= i < |s| ==> r[i] == UpperChar(s[i])
  {
    if s == [] then [] else [UpperChar(s[0])] + ToUpper(s[1..])
  }

  /** `str.replace(' ', '')`: only U+0020 goes; tabs and line breaks stay. */
  function RemoveSpaces(s: string): (r: string)
    ensures ' ' !in r
    ensures |r| <= |s|
    ensures forall c :: c != ' ' ==> multiset(r)[c] == multiset(s)[c]
  {
    if s == [] then []
    else if s[0] == ' ' then
      assert s == [s[0]] + s[1..];
      RemoveSpaces(s[1..])
    else
      assert s == [s[0]] + s[1..];
      [s[0]] + RemoveSpaces(s[1..])
  }

  /** The cleaning step `text.upper().replace(' ', '')`. */
  function Normalize(text: string): (t: string)
    ensures ' ' !in t
    ensures forall c :: c != ' ' ==> multiset(t)[c] == multiset(ToUpper(text))[c]
  {
    RemoveSpaces(ToUpper(text))
  }

  // The patterns, one fixed-length window at a time.

  /** `[A-Z]{5}[0-9]{4}[A-Z]` matches the whole of `w`. */
  predicate IsPanWord(w: string) {
    && |w| == 10
    && (forall k | 0 <= k < 5 :: IsUpper(w[k]))
    && (forall k | 5 <= k < 9 :: IsDigit(w[k]))
    && IsUpper(w[9])
  }

  predicate AllDigits(w: string) {
    forall k | 0 <= k < |w| :: IsDigit(w[k])
  }

  /** `[0-9]{12}` matches the whole of `w`. */
  predicate IsDigitRunWord(w: string) {
    |w| == 12 && AllDigits(w)
  }

  /** `[0-9]{4}\s[0-9]{4}\s[0-9]{4}` matches the whole of `w`. */
  predicate IsSpacedDigitsWord(w: string) {
    && |w| == 14
    && AllDigits(w[0..4]) && IsWhitespace(w[4])
    && AllDigits(w[5..9]) && IsWhitespace(w[9])
    && AllDigits(w[10..14])
  }

  /** The PAN pattern matches `t` starting at position `i`. */
  predicate PanAt(t: string, i: nat) {
    i + 10 <= |t| && IsPanWord(t[i..i + 10])
  }

  /** The first alternative of the Aadhaar pattern matches at `i`. */
  predicate DigitRunAt(t: string, i: nat) {
    i + 12 <= |t| && IsDigitRunWord(t[i..i + 12])
  }

  /** The second alternative of the Aadhaar pattern matches at `i`. */
  predicate SpacedDigitsAt(t: string, i: nat) {
    i + 14 <= |t| && IsSpacedDigitsWord(t[i..i + 14])
  }

  /** One of the two alternatives of the Aadhaar pattern matches at `i`. */
  predicate AadhaarAt(t: string, i: nat) {
    DigitRunAt(t, i) || SpacedDigitsAt(t, i)
  }

  /** `re.search` of the PAN pattern succeeds. */
  predicate HasPan(t: string) {
    exists i: nat | i <= |t| :: PanAt(t, i)
  }

  /** `re.search` of the Aadhaar pattern succeeds. */
  predicate HasAadhaar(t: string) {
    exists i: nat | i <= |t| :: AadhaarAt(t, i)
  }

  /** The `if`/`elif` on the normalised text: PAN is tried first. */
  function Classify(t: string): Option<CardType> {
    if HasPan(t) then Some(Pan)
    else if HasAadhaar(t) then Some(Aadhaar)
    else None
  }

  /** The whole classifier as a value: `None` when OCR raised. */
  function Identify(ocr: Option<string>): Option<CardInfo> {
    match ocr
    case None => None
    case Some(raw) =>
      var t := Normalize(raw);
      Some(CardInfo(Classify(t), t))
  }

  /** `re.search` for the PAN pattern: the leftmost start of a match, if any. */
  method SearchPan(t: string) returns (start: Option<nat>)
    ensures start.None? <==> !HasPan(t)
    ensures start.Some? ==> PanAt(t, start.value)
    ensures start.Some? ==> forall j :: 0 <= j < start.value ==> !PanAt(t, j)
  {
    var i := 0;
    while i + 10 <= |t|
      invariant i <= |t|
      invariant forall j :: 0 <= j < i ==> !PanAt(t, j)
    {
      if IsPanWord(t[i..i + 10]) {
        assert PanAt(t, i);
        return Some(i);
      }
      i := i + 1;
    }
    return None;
  }

  /** `re.search` for the Aadhaar pattern: the leftmost start where either alternative matches. */
  method SearchAadhaar(t: string) returns (start: Option<nat>)
    ensures start.None? <==> !HasAadhaar(t)
    ensures start.Some? ==> AadhaarAt(t, start.value)
    ensures start.Some? ==> forall j :: 0 <= j < start.value ==> !AadhaarAt(t, j)
  {
    var i := 0;
    while i + 12 <= |t|
      invariant i <= |t|
      invariant forall j :: 0 <= j < i ==> !AadhaarAt(t, j)
    {
      if IsDigitRunWord(t[i..i + 12]) || (i + 14 <= |t| && IsSpacedDigitsWord(t[i..i + 14])) {
        assert AadhaarAt(t, i);
        return Some(i);
      }
      i := i + 1;
    }
    return None;
  }

  /**
   * `pan_card_extract_text_and_identify`, given what the OCR engine produced.
   * The card type is PAN exactly when the normalised text holds a PAN number,
   * AADHAAR exactly when it holds no PAN number but an Aadhaar number, and
   * absent otherwise; an OCR failure yields `None` and is not propagated.
   */
  method PanCardExtractTextAndIdentify(ocr: Option<string>) returns (info: Option<CardInfo>)
    ensures info.None? <==> ocr.None?
    ensures info.Some? ==> info.value.extractedText == Normalize(ocr.value)
    ensures info.Some? ==> (info.value.cardType == Some(Pan) <==> HasPan(info.value.extractedText))
    ensures info.Some? ==>
      (info.value.cardType == Some(Aadhaar) <==> !HasPan(info.value.extractedText) && HasAadhaar(info.value.extractedText))
    ensures info == Identify(ocr)
  {
    if ocr.None? {
      return None;
    }
    var text := Normalize(ocr.value);
    var cardType: Option<CardType> := None;
    var pan := SearchPan(text);
    if pan.Some? {
      cardType := Some(Pan);
    } else {
      var aadhaar := SearchAadhaar(text);
      if aadhaar.Some? {
        cardType := Some(Aadhaar);
      }
    }
    info := Some(CardInfo(cardType, text));
  }

  // Properties of the cleaning step.

  lemma ToUpperAppend(a: string, b: string)
    ensures ToUpper(a + b) == ToUpper(a) + ToUpper(b)
  {
  }

  lemma {:induction false} RemoveSpacesAppend(a: string, b: string)
    ensures RemoveSpaces(a + b) == RemoveSpaces(a) + RemoveSpaces(b)
  {
    if a == [] {
      assert a + b == b;
    } else {
      assert (a + b)[0] == a[0] && (a + b)[1..] == a[1..] + b;
      RemoveSpacesAppend(a[1..], b);
    }
  }

  /** Cleaning works piece by piece: the text of a concatenation is the concatenation of the texts. */
  lemma NormalizeAppend(a: string, b: string)
    ensures Normalize(a + b) == Normalize(a) + Normalize(b)
  {
    ToUpperAppend(a, b);
    RemoveSpacesAppend(ToUpper(a), ToUpper(b));
  }

  lemma {:induction false} RemoveSpacesOfSpaceFree(s: string)
    requires ' ' !in s
    ensures RemoveSpaces(s) == s
  {
    if s != [] {
      assert s[0] in s;
      assert forall c :: c in s[1..] ==> c in s;
      RemoveSpacesOfSpaceFree(s[1..]);
      assert s == [s[0]] + s[1..];
    }
  }

  /** A piece of OCR text without U+0020 is only upper-cased by the cleaning step. */
  lemma NormalizeOfSpaceFree(s: string)
    requires ' ' !in s
    ensures Normalize(s) == ToUpper(s)
  {
  }

  /** Every character of the cleaned text is the upper-case image of some character of the OCR text. */
  lemma NormalizeCharacterOrigin(raw: string, j: nat)
    requires j < |Normalize(raw)|
    ensures exists k :: 0 <= k < |raw| && Normalize(raw)[j] == UpperChar(raw[k])
  {
    var t := Normalize(raw);
    var c := t[j];
    assert c in multiset(t);
    assert c != ' ' by { assert c in t; }
    assert c in multiset(ToUpper(raw));
    var k :| 0 <= k < |ToUpper(raw)| && ToUpper(raw)[k] == c;
  }

  /** Cleaning twice is cleaning once: the returned `extracted_text` is already clean. */
  lemma NormalizeIdempotent(s: string)
    ensures Normalize(Normalize(s)) == Normalize(s)
  {
    var t := Normalize(s);
    forall i | 0 <= i < |t| ensures UpperChar(t[i]) == t[i] {
      NormalizeCharacterOrigin(s, i);
    }
    assert ToUpper(t) == t;
    RemoveSpacesOfSpaceFree(t);
  }

  // Properties of the classifier on raw OCR text.

  /** A PAN number as printed: five letters in either case, four digits, a letter. */
  predicate IsPanNumber(w: string) {
    && |w| == 10
    && (forall k | 0 <= k < 5 :: IsUpper(w[k]) || IsLower(w[k]))
    && (forall k | 5 <= k < 9 :: IsDigit(w[k]))
    && (IsUpper(w[9]) || IsLower(w[9]))
  }

  /**
   * OCR text containing a PAN number, in any letter case and with anything
   * around it (even a 12-digit number), is classified as PAN.
   */
  lemma PanNumberInOcr(pre: string, w: string, post: string)
    requires IsPanNumber(w)
    ensures Identify(Some(pre + w + post)) == Some(CardInfo(Some(Pan), Normalize(pre + w + post)))
  {
    var t := Normalize(pre + w + post);
    assert ' ' !in w by {
      forall k | 0 <= k < |w| ensures w[k] != ' ' { }
    }
    NormalizeAppend(pre + w, post);
    NormalizeAppend(pre, w);
    NormalizeOfSpaceFree(w);
    var i := |Normalize(pre)|;
    assert t[i..i + 10] == ToUpper(w);
    assert PanAt(t, i);
  }

  /** The Aadhaar number as printed: three groups of four digits separated by U+0020. */
  predicate IsSpacedAadhaarNumber(w: string) {
    && |w| == 14
    && AllDigits(w[0..4]) && w[4] == ' '
    && AllDigits(w[5..9]) && w[9] == ' '
    && AllDigits(w[10..14])
  }

  /**
   * A space-separated Aadhaar number in the OCR text still classifies as
   * AADHAAR when no PAN number is present: removing the spaces turns it into
   * twelve consecutive digits, which the first alternative matches.
   */
  lemma SpacedAadhaarNumberInOcr(pre: string, w: string, post: string)
    requires IsSpacedAadhaarNumber(w)
    requires !HasPan(Normalize(pre + w + post))
    ensures Identify(Some(pre + w + post)) == Some(CardInfo(Some(Aadhaar), Normalize(pre + w + post)))
  {
    var t := Normalize(pre + w + post);
    NormalizeSpacedAadhaarNumber(w);
    NormalizeAppend(pre + w, post);
    NormalizeAppend(pre, w);
    var i := |Normalize(pre)|;
    assert t[i..i + 12] == Normalize(w);
    assert DigitRunAt(t, i);
    assert AadhaarAt(t, i);
  }

  /**
   * The whitespace alternative of the Aadhaar pattern is live: an Aadhaar
   * number whose groups are separated by a line break, tab or other
   * whitespace except U+0020 survives the cleaning step unchanged and is
   * identified as AADHAAR through that alternative alone.
   */
  lemma WhitespaceSeparatedAadhaar(t: string)
    requires IsSpacedDigitsWord(t) && t[4] != ' ' && t[9] != ' '
    ensures Identify(Some(t)) == Some(CardInfo(Some(Aadhaar), t))
    ensures forall i: nat :: !DigitRunAt(t, i)
  {
    assert t == t[0..14];
    forall k | 0 <= k < |t| ensures (if k == 4 || k == 9 then IsWhitespace(t[k]) && t[k] != ' ' else IsDigit(t[k])) {
      if k < 4 { assert t[k] == t[0..4][k]; }
      else if 4 < k < 9 { assert t[k] == t[5..9][k - 5]; }
      else if 9 < k { assert t[k] == t[10..14][k - 10]; }
    }
    assert Normalize(t) == t by {
      assert ' ' !in t;
      NormalizeOfSpaceFree(t);
      assert ToUpper(t) == t;
    }
    assert !HasPan(t) by {
      forall i: nat | i <= |t| ensures !PanAt(t, i) {
        if i + 10 <= |t| {
          assert !IsUpper(t[i..i + 10][0]);
        }
      }
    }
    assert t[0..14] == t;
    assert AadhaarAt(t, 0);
    forall i: nat ensures !DigitRunAt(t, i) {
      if i + 12 <= |t| {
        assert !IsDigit(t[i..i + 12][4 - i]);
      }
    }
  }

  /** The instance "1234\n5678\n9012" of the previous lemma. */
  lemma LineSeparatedAadhaar(t: string)
    requires t == "1234\n5678\n9012"
    ensures Identify(Some(t)) == Some(CardInfo(Some(Aadhaar), t))
    ensures forall i: nat :: !DigitRunAt(t, i)
  {
    assert t[0..4] == "1234" && t[5..9] == "5678" && t[10..14] == "9012";
    WhitespaceSeparatedAadhaar(t);
  }

  /** A space-separated Aadhaar number is cleaned into twelve consecutive digits. */
  lemma NormalizeSpacedAadhaarNumber(w: string)
    requires IsSpacedAadhaarNumber(w)
    ensures Normalize(w) == w[0..4] + w[5..9] + w[10..14]
    ensures IsDigitRunWord(Normalize(w))
  {
    var g1, g2, g3 := w[0..4], w[5..9], w[10..14];
    assert w == g1 + [' '] + g2 + [' '] + g3;
    forall g | g == g1 || g == g2 || g == g3 ensures Normalize(g) == g {
      assert ' ' !in g by {
        forall k | 0 <= k < |g| ensures g[k] != ' ' { assert IsDigit(g[k]); }
      }
      NormalizeOfSpaceFree(g);
      assert ToUpper(g) == g;
    }
    assert Normalize([' ']) == [];
    NormalizeAppend(g1 + [' '] + g2 + [' '], g3);
    NormalizeAppend(g1 + [' '] + g2, [' ']);
    NormalizeAppend(g1 + [' '], g2);
    NormalizeAppend(g1, [' ']);
  }

  /**
   * PAN is tried first: OCR text holding both a PAN number and an Aadhaar
   * number, in either order, is a PAN card although the Aadhaar pattern
   * matches its cleaned text too.
   */
  lemma PanTakesPrecedence(pre: string, p: string, mid: string, a: string, post: string)
    requires IsPanNumber(p) && IsSpacedAadhaarNumber(a)
    ensures HasAadhaar(Normalize(pre + p + mid + a + post))
    ensures Identify(Some(pre + p + mid + a + post)).value.cardType == Some(Pan)
  {
    var t := Normalize(pre + p + mid + a + post);
    assert pre + p + mid + a + post == pre + p + (mid + a + post);
    PanNumberInOcr(pre, p, mid + a + post);
    NormalizeAppend(pre + p + mid + a, post);
    NormalizeAppend(pre + p + mid, a);
    NormalizeSpacedAadhaarNumber(a);
    var i := |Normalize(pre + p + mid)|;
    assert t[i..i + 12] == Normalize(a);
    assert AadhaarAt(t, i);
  }

  /** OCR text without a single digit matches neither pattern: `card_type` stays `None`. */
  lemma NoDigitsNoCardType(raw: string)
    requires forall k :: 0 <= k < |raw| ==> !IsDigit(raw[k])
    ensures Identify(Some(raw)) == Some(CardInfo(None, Normalize(raw)))
  {
    var t := Normalize(raw);
    forall j | 0 <= j < |t| ensures !IsDigit(t[j]) {
      NormalizeCharacterOrigin(raw, j);
    }
    forall i: nat | i <= |t| ensures !PanAt(t, i) && !AadhaarAt(t, i) {
      if i + 10 <= |t| { assert !IsDigit(t[i..i + 10][5]); }
      if i + 12 <= |t| { assert !IsDigit(t[i..i + 12][0]); }
      if i + 14 <= |t| { assert !IsDigit(t[i..i + 14][0..4][0]); }
    }
  }
}
