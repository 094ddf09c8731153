/** Output hygiene: strip control and format characters, then truncate visibly. */
module Sanitize {
  const ELLIPSIS: char := '\U{2026}'

  // C0 except tab, LF and CR; DEL and C1.
  predicate IsControl(c: char) {
    var n := c as int;
    n <= 0x08 || n == 0x0b || n == 0x0c || 0x0e <= n <= 0x1f || 0x7f <= n <= 0x9f
  }

  // Unicode general category Cf.
  predicate IsFormat(c: char) {
    var n := c as int;
    || n == 0xad || 0x600 <= n <= 0x605 || n == 0x61c || n == 0x6dd || n == 0x70f
    || 0x890 <= n <= 0x891 || n == 0x8e2 || n == 0x180e || 0x200b <= n <= 0x200f
    || 0x202a <= n <= 0x202e || 0x2060 <= n <= 0x2064 || 0x2066 <= n <= 0x206f
    || n == 0xfeff || 0xfff9 <= n <= 0xfffb || n == 0x110bd || n == 0x110cd
    || 0x13430 <= n <= 0x1343f || 0x1bca0 <= n <= 0x1bca3 || 0x1d173 <= n <= 0x1d17a
    || n == 0xe0001 || 0xe0020 <= n <= 0xe007f
  }

  predicate IsPlain(c: char) {
    !IsControl(c) && !IsFormat(c)
  }

  function Strip(text: string): string {
    if text == "" then ""
    else (if IsPlain(text[0]) then [text[0]] else "") + Strip(text[1..])
  }

  function Sanitize(text: string, maxLen: int): string {
    var cleaned := Strip(text);
    if |cleaned| <= maxLen then cleaned
    else cleaned[..if maxLen < 1 then 0 else maxLen - 1] + [ELLIPSIS]
  }

  predicate AllPlain(text: string) {
    forall i :: 0 <= i < |text| ==> IsPlain(text[i])
  }

  lemma {:induction false} StripIsPlain(text: string)
    ensures AllPlain(Strip(text)) && |Strip(text)| <= |text|
  {
    if text != "" {
      StripIsPlain(text[1..]);
    }
  }

  lemma {:induction false} StripKeepsPlain(text: string)
    requires AllPlain(text)
    ensures Strip(text) == text
  {
    if text != "" {
      assert IsPlain(text[0]);
      assert AllPlain(text[1..]) by {
        forall i | 0 <= i < |text[1..]| ensures IsPlain(text[1..][i]) {
          assert text[1..][i] == text[i + 1];
        }
      }
      StripKeepsPlain(text[1..]);
    }
  }

  lemma {:induction false} StripConcat(a: string, b: string)
    ensures Strip(a + b) == Strip(a) + Strip(b)
  {
    if a == "" {
      assert a + b == b;
    } else {
      assert (a + b)[1..] == a[1..] + b;
      StripConcat(a[1..], b);
    }
  }

  /** No control or format character survives, and the bound holds whenever it allows
      at least the ellipsis. */
  lemma SanitizedIsCleanAndShort(text: string, maxLen: int)
    ensures AllPlain(Sanitize(text, maxLen))
    ensures |Sanitize(text, maxLen)| <= if maxLen < 1 then 1 else maxLen
  {
    StripIsPlain(text);
  }

  /** Sanitizing leaves a text alone exactly when it is clean and fits: any change shows. */
  lemma SanitizeIsIdentityIff(text: string, maxLen: int)
    ensures Sanitize(text, maxLen) == text <==>
            AllPlain(text) && (|text| <= maxLen || (maxLen < 1 && text == [ELLIPSIS]))
  {
    StripIsPlain(text);
    if AllPlain(text) {
      StripKeepsPlain(text);
    }
  }

  lemma SanitizeIsIdempotent(text: string, maxLen: int)
    ensures Sanitize(Sanitize(text, maxLen), maxLen) == Sanitize(text, maxLen)
  {
    var once := Sanitize(text, maxLen);
    SanitizedIsCleanAndShort(text, maxLen);
    StripKeepsPlain(once);
    if maxLen < 1 && once != "" {
      assert once == [ELLIPSIS];
    }
  }
}
