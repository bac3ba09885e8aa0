/**
 * The request checks of buy_product and replenish_product
 * (project_server.py:57-72 and 98-105): straight-line chains in which the
 * first failing check alone decides the reason of the 400 reply. They run
 * before the lock is taken and before the catalog is loaded.
 */
module Validation {

  import opened Wrappers

  /**
   * The "quantity" field of the JSON body as `data.get("quantity")` sees it:
   * absent or null, a JSON integer, or anything else (a float, a boolean,
   * a string, a list...), which `type(quantity) != int` rejects.
   */
  datatype Quantity = Missing | Integer(value: int) | NotInteger

  const MissingQuantity := "missing quantity"
  const InvalidQuantity := "invalid quantity"
  const MissingCard := "missing card number"
  const CardLength := "card number needs 16 digits"
  const CardNotNumber := "card number should be 16 digits"

  /**
   * Python's `str.isspace()`: the characters that `str.strip()` removes. None
   * of them can be part of a number: no digit, sign or underscore.
   */
  predicate IsSpace(c: char): (ok: bool)
    ensures ok ==> !IsDigit(c) && c != '+' && c != '-' && c != '_'
  {
    var n := c as int;
    (0x09 <= n <= 0x0D) || (0x1C <= n <= 0x20) || n == 0x85 || n == 0xA0 || n == 0x1680
    || (0x2000 <= n <= 0x200A) || n == 0x2028 || n == 0x2029 || n == 0x202F || n == 0x205F
    || n == 0x3000
  }

  /**
   * The characters `int()` skips around a number. Below U+0080 these are only
   * the C whitespace characters (tab, line feed, vertical tab, form feed,
   * carriage return and space); above, every `str.isspace()` character is read
   * as a space. So the four separators U+001C to U+001F, which `strip()`
   * removes, are not skipped.
   */
  predicate IntSpace(c: char): (ok: bool)
    ensures ok ==> IsSpace(c)
    ensures c as int >= 0x80 ==> (ok <==> IsSpace(c))
    ensures c as int < 0x80 ==> (ok <==> c == ' ' || '\t' <= c <= '\r')
  {
    IsSpace(c) && !(0x1C <= c as int <= 0x1F)
  }

  predicate IsDigit(c: char)
  {
    '0' <= c <= '9'
  }

  /** Every character of `s` is one that `blank` holds of. */
  predicate AllBlank(s: string, blank: char -> bool)
  {
    forall k :: 0 <= k < |s| ==> blank(s[k])
  }

  predicate AllDigits(s: string)
  {
    forall k :: 0 <= k < |s| ==> IsDigit(s[k])
  }

  /** How many `blank` characters `s` starts with. */
  function LeadingSpaces(s: string, blank: char -> bool): (n: nat)
    ensures n <= |s|
    ensures forall k :: 0 <= k < n ==> blank(s[k])
    ensures n < |s| ==> !blank(s[n])
  {
    if s == [] || !blank(s[0]) then 0 else 1 + LeadingSpaces(s[1..], blank)
  }

  /** How many `blank` characters `s` ends with. */
  function TrailingSpaces(s: string, blank: char -> bool): (n: nat)
    ensures n <= |s|
    ensures forall k :: |s| - n <= k < |s| ==> blank(s[k])
    ensures n < |s| ==> !blank(s[|s| - 1 - n])
  {
    if s == [] || !blank(s[|s| - 1]) then 0 else 1 + TrailingSpaces(s[..|s| - 1], blank)
  }

  /**
   * `s` without its leading and trailing `blank` characters: `s.strip()` with
   * `IsSpace`, and the text `int()` reads with `IntSpace`.
   */
  function Strip(s: string, blank: char -> bool): (r: string)
    ensures |r| <= |s|
    ensures r == [] || (!blank(r[0]) && !blank(r[|r| - 1]))
    ensures r == [] <==> AllBlank(s, blank)
    ensures s == [] || (!blank(s[0]) && !blank(s[|s| - 1])) ==> r == s
  {
    var t := s[LeadingSpaces(s, blank)..];
    t[..|t| - TrailingSpaces(t, blank)]
  }

  /**
   * Decimal digits with single underscores between digits, the body of a
   * base-10 integer literal that `int()` accepts.
   */
  predicate IsDigitRun(u: string)
  {
    && |u| > 0
    && forall k :: 0 <= k < |u| ==> IsDigit(u[k]) || JoinsDigits(u, k)
  }

  /** Position `k` of `u` is an underscore with a digit on either side. */
  predicate JoinsDigits(u: string, k: int)
  {
    0 < k < |u| - 1 && u[k] == '_' && IsDigit(u[k - 1]) && IsDigit(u[k + 1])
  }

  /**
   * `int(s)` succeeds: after the characters `int()` skips are stripped, an
   * optional '+' or '-' sign followed by a digit run. The accepted text starts
   * with a sign or a digit, ends with a digit, and holds only digits and
   * underscores in between (not every such text is accepted: "1__2" is not).
   */
  predicate IntParsable(s: string): (ok: bool)
    ensures ok ==> var t := Strip(s, IntSpace);
      && t != []
      && (IsDigit(t[0]) || t[0] == '+' || t[0] == '-')
      && IsDigit(t[|t| - 1])
      && forall k :: 0 < k < |t| ==> IsDigit(t[k]) || t[k] == '_'
  {
    var t := Strip(s, IntSpace);
    var u := if t != [] && (t[0] == '+' || t[0] == '-') then t[1..] else t;
    IsDigitRun(u)
  }

  /**
   * The card checks of project_server.py:67-72, in their order. A card that
   * passes has sixteen characters once stripped, and they are exactly the
   * characters `int()` read as a number.
   */
  function CardError(card: string): (r: Option<string>)
    ensures r.Some? ==> r.value == CardLength || r.value == CardNotNumber
    ensures r.None? ==> |Strip(card, IsSpace)| == 16 && Strip(card, IsSpace) == Strip(card, IntSpace)
  {
    if |Strip(card, IsSpace)| != 16 then Some(CardLength)
    else if !IntParsable(card) then Some(CardNotNumber)
    else
      StripsAgree(card);
      None
  }

  /**
   * The checks of buy_product (project_server.py:61-72), first failure wins.
   * A request that passes carries a non-negative integer quantity and a card.
   */
  function BuyRequestError(quantity: Quantity, card: Option<string>): (r: Option<string>)
    ensures r.None? ==> quantity.Integer? && quantity.value >= 0 && card.Some?
    ensures r.Some? ==> r.value in [MissingQuantity, InvalidQuantity, MissingCard, CardLength, CardNotNumber]
  {
    if quantity.Missing? then Some(MissingQuantity)
    else if quantity.NotInteger? || quantity.value < 0 then Some(InvalidQuantity)
    else if card.None? then Some(MissingCard)
    else CardError(card.value)
  }

  /**
   * The checks of replenish_product (project_server.py:102-105), first failure
   * wins. A request that passes carries a non-negative integer quantity.
   */
  function ReplenishRequestError(quantity: Quantity): (r: Option<string>)
    ensures r.None? ==> quantity.Integer? && quantity.value >= 0
    ensures r.Some? ==> r.value == MissingQuantity || r.value == InvalidQuantity
  {
    if quantity.Missing? then Some(MissingQuantity)
    else if quantity.NotInteger? || quantity.value < 0 then Some(InvalidQuantity)
    else None
  }

  /**
   * Each reason of a buy request is reported exactly when its own check
   * fails and every earlier one passed; a request passes only with a
   * non-negative integer quantity and a card that passes both card checks.
   */
  lemma BuyCheckOrder(quantity: Quantity, card: Option<string>)
    ensures BuyRequestError(quantity, card) == Some(MissingQuantity) <==> quantity.Missing?
    ensures BuyRequestError(quantity, card) == Some(InvalidQuantity)
        <==> quantity.NotInteger? || (quantity.Integer? && quantity.value < 0)
    ensures BuyRequestError(quantity, card) == Some(MissingCard)
        <==> quantity.Integer? && quantity.value >= 0 && card.None?
    ensures BuyRequestError(quantity, card) == Some(CardLength)
        <==> quantity.Integer? && quantity.value >= 0 && card.Some? && |Strip(card.value, IsSpace)| != 16
    ensures BuyRequestError(quantity, card) == Some(CardNotNumber)
        <==> quantity.Integer? && quantity.value >= 0 && card.Some? && |Strip(card.value, IsSpace)| == 16
             && !IntParsable(card.value)
    ensures BuyRequestError(quantity, card) == None
        <==> quantity.Integer? && quantity.value >= 0 && card.Some? && |Strip(card.value, IsSpace)| == 16
             && IntParsable(card.value)
  {
  }

  /** The same for a replenish request, which has no card. */
  lemma ReplenishCheckOrder(quantity: Quantity)
    ensures ReplenishRequestError(quantity) == Some(MissingQuantity) <==> quantity.Missing?
    ensures ReplenishRequestError(quantity) == Some(InvalidQuantity)
        <==> quantity.NotInteger? || (quantity.Integer? && quantity.value < 0)
    ensures ReplenishRequestError(quantity) == None <==> quantity.Integer? && quantity.value >= 0
  {
  }

  /** A quantity of 0 passes the quantity checks: `0 < 0` is false. */
  lemma ZeroQuantityAccepted()
    ensures ReplenishRequestError(Integer(0)) == None
    ensures BuyRequestError(Integer(0), Some("1234567812345678")) == None
  {
    SixteenDigitCardAccepted("1234567812345678");
  }

  /** Sixteen decimal digits always pass both card checks. */
  lemma SixteenDigitCardAccepted(card: string)
    requires |card| == 16 && AllDigits(card)
    ensures CardError(card) == None
  {
    assert !IsSpace(card[0]) && !IsSpace(card[15]);
    assert Strip(card, IsSpace) == card && Strip(card, IntSpace) == card;
  }

  /** A leading run of `blank` characters is counted up to the first other character. */
  lemma LeadingSpacesOf(pre: string, rest: string, blank: char -> bool)
    requires AllBlank(pre, blank) && rest != [] && !blank(rest[0])
    ensures LeadingSpaces(pre + rest, blank) == |pre|
  {
    var s := pre + rest;
    assert forall k :: 0 <= k < |pre| ==> s[k] == pre[k];
    assert s[|pre|] == rest[0];
  }

  /** A trailing run of `blank` characters is counted back to the last other character. */
  lemma TrailingSpacesOf(rest: string, post: string, blank: char -> bool)
    requires AllBlank(post, blank) && rest != [] && !blank(rest[|rest| - 1])
    ensures TrailingSpaces(rest + post, blank) == |post|
  {
    var s := rest + post;
    assert forall k :: |rest| <= k < |s| ==> s[k] == post[k - |rest|];
    assert s[|rest| - 1] == rest[|rest| - 1];
  }

  /** Stripping a text wrapped in `blank` characters gives back the text. */
  lemma StripSurrounded(pre: string, core: string, post: string, blank: char -> bool)
    requires AllBlank(pre, blank) && AllBlank(post, blank)
    requires core != [] && !blank(core[0]) && !blank(core[|core| - 1])
    ensures Strip(pre + core + post, blank) == core
  {
    var s := pre + core + post;
    LeadingSpacesOf(pre, core + post, blank);
    assert s == pre + (core + post) && s[|pre|..] == core + post;
    TrailingSpacesOf(core, post, blank);
    assert (core + post)[..|core|] == core;
  }

  /**
   * When the text `int()` reads has no `str.isspace()` character at either
   * end, `strip()` removes exactly what `int()` skipped: every character
   * `int()` skips is one `strip()` removes.
   */
  lemma StripsAgree(s: string)
    requires var t := Strip(s, IntSpace); t != [] && !IsSpace(t[0]) && !IsSpace(t[|t| - 1])
    ensures Strip(s, IsSpace) == Strip(s, IntSpace)
  {
    var n := LeadingSpaces(s, IntSpace);
    var u := s[n..];
    var m := TrailingSpaces(u, IntSpace);
    var pre, core, post := s[..n], u[..|u| - m], u[|u| - m..];
    assert core == Strip(s, IntSpace);
    assert s == pre + core + post by {
      assert s == s[..n] + u && u == core + post;
    }
    assert AllBlank(pre, IsSpace) by {
      forall k | 0 <= k < |pre| ensures IsSpace(pre[k]) {
        assert IntSpace(s[k]);
      }
    }
    assert AllBlank(post, IsSpace) by {
      forall k | 0 <= k < |post| ensures IsSpace(post[k]) {
        assert IntSpace(u[|u| - m + k]);
      }
    }
    StripSurrounded(pre, core, post, IsSpace);
  }

  /**
   * Whitespace that `int()` skips is ignored by both checks, so sixteen
   * digits with any such whitespace in front and behind pass (a space and a
   * newline, say; not U+001C, see SeparatorPaddedCardRejected).
   */
  lemma PaddedCardAccepted(pre: string, digits: string, post: string)
    requires |digits| == 16 && AllDigits(digits)
    requires AllBlank(pre, IntSpace) && AllBlank(post, IntSpace)
    ensures CardError(pre + digits + post) == None
  {
    var card := pre + digits + post;
    assert AllBlank(pre, IsSpace) && AllBlank(post, IsSpace) by {
      forall k | 0 <= k < |pre| ensures IsSpace(pre[k]) {
        assert IntSpace(pre[k]);
      }
      forall k | 0 <= k < |post| ensures IsSpace(post[k]) {
        assert IntSpace(post[k]);
      }
    }
    StripSurrounded(pre, digits, post, IsSpace);
    StripSurrounded(pre, digits, post, IntSpace);
    assert IsDigitRun(digits) && IsDigit(digits[0]);
    assert IntParsable(card);
  }

  /**
   * `strip()` removes the separator U+001C but `int()` does not skip it, so
   * sixteen digits behind that character pass the length check and fail the
   * number check.
   */
  lemma SeparatorPaddedCardRejected(digits: string)
    requires |digits| == 16 && AllDigits(digits)
    ensures CardError(['\U{1C}'] + digits) == Some(CardNotNumber)
  {
    var card := ['\U{1C}'] + digits;
    assert card == ['\U{1C}'] + digits + [];
    StripSurrounded(['\U{1C}'], digits, [], IsSpace);
    assert card[|card| - 1] == digits[15];
    assert Strip(card, IntSpace) == card;
    assert !IsDigit(card[0]) && !JoinsDigits(card, 0);
  }

  /** A card that strips to itself passes when what follows its optional sign is a digit run. */
  lemma UnpaddedCardAccepted(card: string)
    requires |card| == 16 && !IsSpace(card[0]) && !IsSpace(card[15])
    requires IsDigitRun(if card[0] == '+' || card[0] == '-' then card[1..] else card)
    ensures CardError(card) == None
  {
    assert Strip(card, IsSpace) == card && Strip(card, IntSpace) == card;
  }

  /**
   * The checks do not demand sixteen digits: `int()` accepts a leading sign,
   * so a sign followed by fifteen digits passes.
   */
  lemma SignedCardAccepted(digits: string)
    requires |digits| == 15 && AllDigits(digits)
    ensures CardError(['-'] + digits) == None
    ensures CardError(['+'] + digits) == None
  {
    assert IsDigitRun(digits);
    var minus, plus := ['-'] + digits, ['+'] + digits;
    assert minus[1..] == digits && minus[15] == digits[14];
    UnpaddedCardAccepted(minus);
    assert plus[1..] == digits && plus[15] == digits[14];
    UnpaddedCardAccepted(plus);
  }

  /**
   * Nor does `int()` reject an underscore between two digits, so fifteen
   * digits split by one underscore pass as well.
   */
  lemma GroupedCardAccepted(left: string, right: string)
    requires |left| > 0 && |right| > 0 && |left| + |right| == 15
    requires AllDigits(left) && AllDigits(right)
    ensures CardError(left + ['_'] + right) == None
  {
    var card := left + ['_'] + right;
    forall k | 0 <= k < |card|
      ensures IsDigit(card[k]) || JoinsDigits(card, k)
    {
      if k < |left| {
        assert card[k] == left[k];
      } else if k > |left| {
        assert card[k] == right[k - |left| - 1];
      } else {
        assert card[k - 1] == left[|left| - 1] && card[k + 1] == right[0];
      }
    }
    assert IsDigitRun(card);
    assert IsDigit(card[0]) && IsDigit(card[15]);
    UnpaddedCardAccepted(card);
  }

  /**
   * A sixteen-character card with a character other than a digit or an
   * underscore after its first position fails the number check, e.g. the
   * letters of "HKCERTCTF2022WFC" or the space inside "12345678 1234567".
   */
  lemma StrayCharacterCardRejected(card: string, k: nat)
    requires |card| == 16 && !IsSpace(card[0]) && !IsSpace(card[15])
    requires 0 < k < 16 && !IsDigit(card[k]) && card[k] != '_'
    ensures CardError(card) == Some(CardNotNumber)
  {
    assert Strip(card, IsSpace) == card && Strip(card, IntSpace) == card;
    var signed := card[0] == '+' || card[0] == '-';
    var u := if signed then card[1..] else card;
    var j := if signed then k - 1 else k;
    assert 0 <= j < |u| && u[j] == card[k];
    assert !IsDigit(u[j]) && !JoinsDigits(u, j);
  }

  /** The card of the invalid-input test has sixteen characters and fails the number check. */
  lemma LetterCardRejected()
    ensures CardError("HKCERTCTF2022WFC") == Some(CardNotNumber)
  {
    var card := "HKCERTCTF2022WFC";
    assert card[0] == 'H' && card[1] == 'K' && card[15] == 'C';
    StrayCharacterCardRejected(card, 1);
  }
}
