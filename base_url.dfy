/** `WhenToWork._is_base_url_valid`: the number after `www` in the base URL must equal the
    alphabet position of the letter in `w2w<letter>.dll`. Both parts are found the way
    `re.search` finds them: the leftmost match, with `\d+` taking as many digits as it can. */
module BaseUrl {
  import opened Wrappers
  import opened Text

  const DefaultBaseUrl: string := "https://www6.whentowork.com/" + "cgi-bin/w2wF.dll/api/"

  /** `www\d+` matches at `i`. */
  predicate WwwAt(s: string, i: nat)
  {
    i + 4 <= |s| && s[i] == 'w' && s[i + 1] == 'w' && s[i + 2] == 'w' && IsDigit(s[i + 3])
  }

  /** `w2w([A-Za-z])\.dll` matches at `i`. */
  predicate DllAt(s: string, i: nat)
  {
    && i + 8 <= |s|
    && s[i] == 'w' && s[i + 1] == '2' && s[i + 2] == 'w'
    && IsAsciiLetter(s[i + 3])
    && s[i + 4] == '.' && s[i + 5] == 'd' && s[i + 6] == 'l' && s[i + 7] == 'l'
  }

  /** The first position from `k` on where `www\d+` matches: `re.search`'s scan. */
  function FindWww(s: string, k: nat): (r: Option<nat>)
    ensures r.Some? ==> k <= r.value && WwwAt(s, r.value) && forall j :: k <= j < r.value ==> !WwwAt(s, j)
    ensures r.None? ==> forall j :: k <= j ==> !WwwAt(s, j)
    decreases |s| - k
  {
    if k >= |s| then None
    else if WwwAt(s, k) then Some(k)
    else FindWww(s, k + 1)
  }

  /** The first position from `k` on where `w2w<letter>.dll` matches. */
  function FindDll(s: string, k: nat): (r: Option<nat>)
    ensures r.Some? ==> k <= r.value && DllAt(s, r.value) && forall j :: k <= j < r.value ==> !DllAt(s, j)
    ensures r.None? ==> forall j :: k <= j ==> !DllAt(s, j)
    decreases |s| - k
  {
    if k >= |s| then None
    else if DllAt(s, k) then Some(k)
    else FindDll(s, k + 1)
  }

  /** The end of the run of digits that starts at `i`: `\d+` is greedy. */
  function DigitRunEnd(s: string, i: nat): (e: nat)
    requires i <= |s|
    ensures i <= e <= |s| && AllDigits(s[i..e]) && (e == |s| || !IsDigit(s[e]))
    decreases |s| - i
  {
    if i == |s| || !IsDigit(s[i]) then i
    else
      var e := DigitRunEnd(s, i + 1);
      assert s[i..e] == [s[i]] + s[i + 1..e];
      e
  }

  /** `www\d+` matches at `i` and nowhere before. */
  predicate FirstWwwAt(s: string, i: nat)
  {
    WwwAt(s, i) && forall k :: 0 <= k < i ==> !WwwAt(s, k)
  }

  /** `w2w<letter>.dll` matches at `j` and nowhere before. */
  predicate FirstDllAt(s: string, j: nat)
  {
    DllAt(s, j) && forall k :: 0 <= k < j ==> !DllAt(s, k)
  }

  /** The number of the first `www` match: all the digits that follow it. */
  function NumberAt(s: string, i: nat): nat
    requires WwwAt(s, i)
  {
    DigitsValue(s[i + 3..DigitRunEnd(s, i + 3)])
  }

  /** `int(www_match.group(1))`, when `www\d+` occurs. */
  function WwwNumber(s: string): (r: Option<nat>)
    ensures r.Some? <==> exists i: nat :: WwwAt(s, i)
    ensures forall i: nat :: FirstWwwAt(s, i) ==> r == Some(NumberAt(s, i))
  {
    match FindWww(s, 0)
    case None => None
    case Some(i) => Some(NumberAt(s, i))
  }

  /** `dll_match.group(1)`, when `w2w<letter>.dll` occurs. */
  function DllLetter(s: string): (r: Option<char>)
    ensures r.Some? <==> exists j: nat :: DllAt(s, j)
    ensures r.Some? ==> IsAsciiLetter(r.value)
    ensures forall j: nat :: FirstDllAt(s, j) ==> r == Some(s[j + 3])
  {
    match FindDll(s, 0)
    case None => None
    case Some(j) => Some(s[j + 3])
  }

  /** `ord(letter.upper()) & 31`. On an ASCII letter this is the letter's place in the alphabet,
      A = 1 to Z = 26, whatever its case. */
  function LetterPosition(c: char): (r: int)
    ensures 0 <= r < 32
    ensures IsAsciiLetter(c) ==> 1 <= r <= 26
    ensures 'A' <= c <= 'Z' ==> r == (c as int) - ('A' as int) + 1
    ensures 'a' <= c <= 'z' ==> r == (c as int) - ('a' as int) + 1
  {
    (UpperChar(c) as int) % 32
  }

  /** `_is_base_url_valid`: a consistent URL has both parts, and its server number is an alphabet
      position. */
  function IsBaseUrlValid(url: string): (r: bool)
    ensures r ==> WwwNumber(url).Some? && DllLetter(url).Some?
    ensures r ==> 1 <= WwwNumber(url).value <= 26
  {
    match (WwwNumber(url), DllLetter(url))
    case (Some(n), Some(c)) => n == LetterPosition(c)
    case _ => false
  }

  /** The check holds exactly when both patterns occur and the number of the first `www` match
      equals the alphabet position of the letter of the first `w2w<letter>.dll` match. */
  lemma ValidIff(url: string)
    ensures IsBaseUrlValid(url) <==>
      exists i: nat, j: nat :: FirstWwwAt(url, i) && FirstDllAt(url, j) && NumberAt(url, i) == LetterPosition(url[j + 3])
  {
    var w, d := FindWww(url, 0), FindDll(url, 0);
    if IsBaseUrlValid(url) {
      assert FirstWwwAt(url, w.value) && FirstDllAt(url, d.value);
    }
    if exists i: nat, j: nat :: FirstWwwAt(url, i) && FirstDllAt(url, j) && NumberAt(url, i) == LetterPosition(url[j + 3]) {
      var i: nat, j: nat :| FirstWwwAt(url, i) && FirstDllAt(url, j) && NumberAt(url, i) == LetterPosition(url[j + 3]);
      assert w == Some(i) by {
        if w.Some? { assert !(w.value < i) && !(i < w.value); }
      }
      assert d == Some(j) by {
        if d.Some? { assert !(d.value < j) && !(j < d.value); }
      }
    }
  }

  /** Without a `www<digits>` part, or without a single-letter `w2w<letter>.dll` part, the URL is
      invalid. */
  lemma MissingPartIsInvalid(url: string)
    requires (forall i: nat :: !WwwAt(url, i)) || (forall j: nat :: !DllAt(url, j))
    ensures !IsBaseUrlValid(url)
  {
    ValidIff(url);
  }

  lemma OneDigit(t: string)
    requires |t| == 1 && IsDigit(t[0])
    ensures AllDigits(t) && DigitsValue(t) == DigitValue(t[0])
  {
    assert t[..0] == [];
  }

  lemma DefaultWww()
    ensures WwwNumber(DefaultBaseUrl) == Some(6)
  {
    var s := DefaultBaseUrl;
    var k := 8;
    while k > 0
      invariant 0 <= k <= 8 && FindWww(s, k) == Some(8)
    {
      k := k - 1;
      assert !WwwAt(s, k);
    }
    assert DigitRunEnd(s, 11) == 12;
    OneDigit(s[11..12]);
  }

  lemma DefaultDll()
    ensures DllLetter(DefaultBaseUrl) == Some('F')
  {
    var s := DefaultBaseUrl;
    var k := 36;
    while k > 0
      invariant 0 <= k <= 36 && FindDll(s, k) == Some(36)
    {
      k := k - 1;
      assert !DllAt(s, k);
    }
  }

  /** The default base URL: `www6` and `w2wF.dll`, F being the sixth letter. */
  lemma DefaultIsValid()
    ensures IsBaseUrlValid(DefaultBaseUrl)
  {
    DefaultWww();
    DefaultDll();
  }

  lemma MismatchWww()
    ensures WwwNumber("https://www1.whentowork.com/" + "cgi-bin/w2wB.dll/api/") == Some(1)
  {
    var s := "https://www1.whentowork.com/" + "cgi-bin/w2wB.dll/api/";
    var k := 8;
    while k > 0
      invariant 0 <= k <= 8 && FindWww(s, k) == Some(8)
    {
      k := k - 1;
      assert !WwwAt(s, k);
    }
    assert DigitRunEnd(s, 11) == 12;
    OneDigit(s[11..12]);
  }

  lemma MismatchDll()
    ensures DllLetter("https://www1.whentowork.com/" + "cgi-bin/w2wB.dll/api/") == Some('B')
  {
    var s := "https://www1.whentowork.com/" + "cgi-bin/w2wB.dll/api/";
    var k := 36;
    while k > 0
      invariant 0 <= k <= 36 && FindDll(s, k) == Some(36)
    {
      k := k - 1;
      assert !DllAt(s, k);
    }
  }

  /** `www1` with `w2wB.dll` is inconsistent: B is the second letter. */
  lemma MismatchIsInvalid()
    ensures !IsBaseUrlValid("https://www1.whentowork.com/" + "cgi-bin/w2wB.dll/api/")
  {
    MismatchWww();
    MismatchDll();
  }

  /** A two-letter `w2wCC.dll` has no single-letter match, so the URL is invalid. */
  lemma TwoLetterDllIsInvalid()
    ensures !IsBaseUrlValid("https://www3.whentowork.com/" + "cgi-bin/w2wCC.dll/api/")
  {
    var s := "https://www3.whentowork.com/" + "cgi-bin/w2wCC.dll/api/";
    var k := |s|;
    while k > 0
      invariant 0 <= k <= |s| && FindDll(s, k) == None
    {
      k := k - 1;
      assert !DllAt(s, k);
    }
  }
}
