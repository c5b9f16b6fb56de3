/**
 * The helper functions of the assistant: input validators, the exit-keyword
 * detector, the tech-stack classifier, the display maskers and formatter,
 * the input sanitiser and the append-only candidate record store.
 */
module Utils {
  import opened Wrappers
  import opened Strings
  import opened Config

  // ---------------------------------------------------------------------------
  // validate_email
  // ---------------------------------------------------------------------------

  /** `[a-zA-Z0-9._%+-]` */
  predicate IsLocalChar(c: char) {
    IsLetter(c) || IsDigit(c) || c == '.' || c == '_' || c == '%' || c == '+' || c == '-'
  }

  /** `[a-zA-Z0-9.-]` */
  predicate IsDomainChar(c: char) {
    IsLetter(c) || IsDigit(c) || c == '.' || c == '-'
  }

  /**
   * `s` matches `^[a-zA-Z0-9._%+-]+@[a-zA-Z0-9.-]+\.[a-zA-Z]{2,}$` with the '@' at
   * index `at` and the dot before the top-level domain at index `dot`.
   */
  predicate EmailSplitAt(s: string, at: int, dot: int) {
    && 0 < at && at + 1 < dot && dot + 3 <= |s|
    && s[at] == '@' && s[dot] == '.'
    && All(s[..at], IsLocalChar)
    && All(s[at + 1..dot], IsDomainChar)
    && All(s[dot + 1..], IsLetter)
  }

  /** The regular expression of the source, on the stripped input. */
  ghost predicate MatchesEmailPattern(s: string) {
    exists at, dot :: EmailSplitAt(s, at, dot)
  }

  /**
   * `[a-zA-Z0-9.-]+\.[a-zA-Z]{2,}$` decided from the end of `r`, when `letters`
   * letters have been read after it: more letters, then the dot, then one or
   * more domain characters up to the '@'.
   */
  predicate DomainFromEnd(r: string, letters: nat)
    decreases |r|
  {
    r != [] &&
    var c := r[|r| - 1];
    if IsLetter(c) then DomainFromEnd(r[..|r| - 1], letters + 1)
    else c == '.' && letters >= 2 && |r| >= 2 && All(r[..|r| - 1], IsDomainChar)
  }

  /** After the local part has started: more local characters up to the '@', then the domain. */
  predicate AfterLocal(s: string)
    decreases |s|
  {
    s != [] &&
    if s[0] == '@' then DomainFromEnd(s[1..], 0)
    else IsLocalChar(s[0]) && AfterLocal(s[1..])
  }

  /** The regular expression of the source, decided in one pass: a local character, then the rest. */
  predicate EmailCheck(s: string) {
    s != [] && IsLocalChar(s[0]) && AfterLocal(s[1..])
  }

  /** The dot before the top-level domain of `r` at index `d`, with `letters` letters already read after `r`. */
  predicate DomainSplitAt(r: string, d: int, letters: nat) {
    && 1 <= d < |r| && r[d] == '.' && |r| - d - 1 + letters >= 2
    && All(r[..d], IsDomainChar) && All(r[d + 1..], IsLetter)
  }

  /** A character that fails `p` does not occur in a string all of whose characters satisfy `p`. */
  lemma AllExcludes(s: string, p: char -> bool, c: char)
    requires All(s, p) && !p(c)
    ensures c !in s
  {
  }

  /** A final letter moves from the string to the count of letters read after it. */
  lemma SplitAfterLetter(r: string, d: int, letters: nat)
    requires r != [] && IsLetter(r[|r| - 1])
    ensures DomainSplitAt(r, d, letters) <==> DomainSplitAt(r[..|r| - 1], d, letters + 1)
  {
    var n := |r| - 1;
    var init := r[..n];
    if 1 <= d < n {
      assert r[..d] == init[..d];
      assert r[d + 1..] == init[d + 1..] + [r[n]];
    }
  }

  /** A final character that is neither a letter nor the dot before the top-level domain. */
  lemma NoSplitAfterOther(r: string, d: int, letters: nat)
    requires r != [] && !IsLetter(r[|r| - 1])
    requires !(r[|r| - 1] == '.' && letters >= 2 && |r| >= 2 && All(r[..|r| - 1], IsDomainChar))
    ensures !DomainSplitAt(r, d, letters)
  {
    var n := |r| - 1;
    if 1 <= d < n {
      assert r[d + 1..][n - d - 1] == r[n];
    }
  }

  lemma {:induction false} DomainFromEndCorrect(r: string, letters: nat)
    ensures DomainFromEnd(r, letters) <==> exists d :: DomainSplitAt(r, d, letters)
    decreases |r|
  {
    if r != [] {
      var n := |r| - 1;
      var c, init := r[n], r[..n];
      if IsLetter(c) {
        DomainFromEndCorrect(init, letters + 1);
        assert DomainFromEnd(r, letters) == DomainFromEnd(init, letters + 1);
        if DomainFromEnd(init, letters + 1) {
          var d :| DomainSplitAt(init, d, letters + 1);
          SplitAfterLetter(r, d, letters);
        }
        if exists d :: DomainSplitAt(r, d, letters) {
          var d :| DomainSplitAt(r, d, letters);
          SplitAfterLetter(r, d, letters);
        }
      } else if c == '.' && letters >= 2 && |r| >= 2 && All(init, IsDomainChar) {
        assert r[..n] == init;
        assert DomainSplitAt(r, n, letters);
      } else {
        forall d ensures !DomainSplitAt(r, d, letters) {
          NoSplitAfterOther(r, d, letters);
        }
      }
    }
  }

  /** The first '@' of `s` at index `at`: local characters before it and a domain after it. */
  predicate LocalSplitAt(s: string, at: int) {
    0 <= at < |s| && s[at] == '@' && All(s[..at], IsLocalChar) && DomainFromEnd(s[at + 1..], 0)
  }

  lemma {:induction false} AfterLocalCorrect(s: string)
    ensures AfterLocal(s) <==> exists at :: LocalSplitAt(s, at)
    decreases |s|
  {
    if s != [] {
      var tail := s[1..];
      if s[0] == '@' {
        assert s[..0] == [];
        assert LocalSplitAt(s, 0) <==> DomainFromEnd(tail, 0);
        forall at | 0 < at < |s| ensures !LocalSplitAt(s, at) {
          assert s[..at][0] == '@';
        }
      } else if IsLocalChar(s[0]) {
        AfterLocalCorrect(tail);
        forall at | LocalSplitAt(s, at) ensures LocalSplitAt(tail, at - 1) {
          assert tail[..at - 1] == s[1..at];
          assert tail[at..] == s[at + 1..];
        }
        forall at | LocalSplitAt(tail, at) ensures LocalSplitAt(s, at + 1) {
          assert s[..at + 1] == [s[0]] + tail[..at];
          assert s[at + 2..] == tail[at + 1..];
        }
      } else {
        forall at | 0 <= at < |s| ensures !LocalSplitAt(s, at) {
          if at > 0 {
            assert s[..at][0] == s[0];
          }
        }
      }
    }
  }

  lemma EmailCheckComplete(s: string)
    requires EmailCheck(s)
    ensures MatchesEmailPattern(s)
  {
    var tail := s[1..];
    AfterLocalCorrect(tail);
    var i :| LocalSplitAt(tail, i);
    var at := i + 1;
    var rest := s[at + 1..];
    assert rest == tail[i + 1..];
    DomainFromEndCorrect(rest, 0);
    var d :| DomainSplitAt(rest, d, 0);
    assert s[..at] == [s[0]] + tail[..i];
    assert s[at + 1..at + 1 + d] == rest[..d];
    assert s[at + 1 + d + 1..] == rest[d + 1..];
    assert EmailSplitAt(s, at, at + 1 + d);
  }

  lemma EmailCheckSound(s: string)
    requires MatchesEmailPattern(s)
    ensures EmailCheck(s)
  {
    var at, dot :| EmailSplitAt(s, at, dot);
    var tail, rest := s[1..], s[at + 1..];
    var d := dot - at - 1;
    assert s[..at][0] == s[0];
    assert rest[..d] == s[at + 1..dot];
    assert rest[d + 1..] == s[dot + 1..];
    assert DomainSplitAt(rest, d, 0);
    DomainFromEndCorrect(rest, 0);
    assert tail[..at - 1] == s[1..at];
    assert tail[at - 1 + 1..] == rest;
    assert LocalSplitAt(tail, at - 1);
    AfterLocalCorrect(tail);
  }

  lemma EmailCheckCorrect(s: string)
    ensures EmailCheck(s) <==> MatchesEmailPattern(s)
  {
    if EmailCheck(s) { EmailCheckComplete(s); }
    if MatchesEmailPattern(s) { EmailCheckSound(s); }
  }

  /** `validate_email` */
  function ValidateEmail(email: string): bool {
    EmailCheck(Strip(email))
  }

  /** An address is accepted exactly when, once stripped, it matches the address pattern. */
  lemma ValidateEmailMatchesPattern(email: string)
    ensures ValidateEmail(email) <==> MatchesEmailPattern(Strip(email))
  {
    EmailCheckCorrect(Strip(email));
  }

  /** Nothing after the '@' of a match is another '@'. */
  lemma NoAtAfterSplit(s: string, at: int, dot: int)
    requires EmailSplitAt(s, at, dot)
    ensures '@' !in s[at + 1..]
  {
    var rest, domain, tld := s[at + 1..], s[at + 1..dot], s[dot + 1..];
    AllExcludes(domain, IsDomainChar, '@');
    AllExcludes(tld, IsLetter, '@');
    forall k | 0 <= k < |rest| ensures rest[k] != '@' {
      var j := at + 1 + k;
      if j < dot {
        assert s[j] == domain[j - at - 1];
      } else if j > dot {
        assert s[j] == tld[j - dot - 1];
      }
    }
  }

  /** An address matching the pattern contains exactly one '@'. */
  lemma PatternHasOneAt(s: string)
    requires MatchesEmailPattern(s)
    ensures Count(s, '@') == 1
  {
    var at, dot :| EmailSplitAt(s, at, dot);
    var local, rest := s[..at], s[at + 1..];
    AllExcludes(local, IsLocalChar, '@');
    NoAtAfterSplit(s, at, dot);
    assert s == local + ['@'] + rest;
    CountConcat(local + ['@'], rest, '@');
    CountConcat(local, ['@'], '@');
  }

  /** An accepted address contains exactly one '@'. */
  lemma ValidEmailHasOneAt(email: string)
    requires ValidateEmail(email)
    ensures Count(Strip(email), '@') == 1
  {
    ValidateEmailMatchesPattern(email);
    PatternHasOneAt(Strip(email));
  }

  // ---------------------------------------------------------------------------
  // validate_phone
  // ---------------------------------------------------------------------------

  /** `[\s\-\(\)\+\.]`: the separators removed before counting digits. */
  predicate IsPhoneSeparator(c: char) {
    IsSpace(c) || c == '-' || c == '(' || c == ')' || c == '+' || c == '.'
  }

  predicate IsPhoneChar(c: char) {
    IsDigit(c) || IsPhoneSeparator(c)
  }

  function CountDigits(s: string): (n: nat)
    ensures n <= |s|
    decreases |s|
  {
    if s == [] then 0 else (if IsDigit(s[0]) then 1 else 0) + CountDigits(s[1..])
  }

  /** `validate_phone`: what is left after removing separators must be at least ten digits. */
  function ValidatePhone(phone: string): (ok: bool)
  {
    var cleaned := Remove(phone, IsPhoneSeparator);
    |cleaned| >= 10 && All(cleaned, IsDigit)
  }

  /** Removing separators leaves only digits exactly when the input has nothing but digits and separators; the digits are then all that is left. */
  lemma {:induction false} CleanedPhone(s: string)
    ensures All(Remove(s, IsPhoneSeparator), IsDigit) <==> All(s, IsPhoneChar)
    ensures All(s, IsPhoneChar) ==> |Remove(s, IsPhoneSeparator)| == CountDigits(s)
    decreases |s|
  {
    if s != [] {
      CleanedPhone(s[1..]);
      var head := if IsPhoneSeparator(s[0]) then [] else [s[0]];
      var tail := Remove(s[1..], IsPhoneSeparator);
      assert Remove(s, IsPhoneSeparator) == head + tail;
      if All(s[1..], IsPhoneChar) && IsPhoneChar(s[0]) {
        assert All(s, IsPhoneChar) by {
          forall i | 0 <= i < |s| ensures IsPhoneChar(s[i]) {
            if i > 0 { assert s[i] == s[1..][i - 1]; }
          }
        }
      }
      if All(s, IsPhoneChar) {
        assert All(s[1..], IsPhoneChar) by {
          forall i | 0 <= i < |s| - 1 ensures IsPhoneChar(s[1..][i]) {
            assert s[1..][i] == s[i + 1];
          }
        }
      }
      if All(head + tail, IsDigit) {
        assert All(tail, IsDigit) by {
          forall i | 0 <= i < |tail| ensures IsDigit(tail[i]) {
            assert tail[i] == (head + tail)[|head| + i];
          }
        }
        if !IsPhoneSeparator(s[0]) {
          assert (head + tail)[0] == s[0];
        }
      }
      if All(tail, IsDigit) && IsPhoneChar(s[0]) {
        assert All(head + tail, IsDigit) by {
          forall i | 0 <= i < |head + tail| ensures IsDigit((head + tail)[i]) {
            if i >= |head| { assert (head + tail)[i] == tail[i - |head|]; }
          }
        }
      }
    }
  }

  /** A phone number is accepted exactly when it holds only digits and separators, with at least ten digits. */
  lemma PhoneAcceptance(phone: string)
    ensures ValidatePhone(phone) <==> All(phone, IsPhoneChar) && CountDigits(phone) >= 10
  {
    CleanedPhone(phone);
  }

  // ---------------------------------------------------------------------------
  // validate_experience
  // ---------------------------------------------------------------------------

  /** `s[i..j]` is the first maximal run of digits in `s` (the first match of `\d+`). */
  predicate FirstDigitRun(s: string, i: int, j: int) {
    && 0 <= i < j <= |s|
    && (forall k :: 0 <= k < i ==> !IsDigit(s[k]))
    && All(s[i..j], IsDigit)
    && (j == |s| || !IsDigit(s[j]))
  }

  /** Number of leading characters satisfying `p`. */
  function Span(s: string, p: char -> bool): (k: nat)
    ensures k <= |s|
    ensures forall j :: 0 <= j < k ==> p(s[j])
    ensures k < |s| ==> !p(s[k])
    decreases |s|
  {
    if s != [] && p(s[0]) then 1 + Span(s[1..], p) else 0
  }

  predicate NotDigit(c: char) {
    !IsDigit(c)
  }

  /** `validate_experience`: the value of the first run of digits, when it lies in 0..50. */
  function ValidateExperience(experience: string): (r: Option<nat>)
    ensures r.Some? ==> r.value <= 50
  {
    var i := Span(experience, NotDigit);
    if i == |experience| then None
    else
      var years := NumeralValue(experience[i..i + Span(experience[i..], IsDigit)]);
      if years <= 50 then Some(years) else None
  }

  /**
   * Without a digit there is no answer; otherwise the answer is the value of
   * the first run of digits when it is at most 50, and none when it is larger.
   */
  lemma ValidateExperienceReadsFirstRun(experience: string)
    ensures (forall k :: 0 <= k < |experience| ==> !IsDigit(experience[k])) ==> ValidateExperience(experience) == None
    ensures forall i, j :: FirstDigitRun(experience, i, j) ==>
      ValidateExperience(experience) ==
        (if NumeralValue(experience[i..j]) <= 50 then Some(NumeralValue(experience[i..j])) else None)
  {
    var i := Span(experience, NotDigit);
    if i < |experience| {
      var j := i + Span(experience[i..], IsDigit);
      assert experience[i..][0] == experience[i];
      assert FirstDigitRun(experience, i, j) by {
        assert forall k :: i <= k < j ==> experience[k] == experience[i..][k - i];
      }
      FirstDigitRunUnique(experience, i, j);
    }
  }

  /** The number is read out of the surrounding words: "3 years" gives 3. */
  lemma ExperienceFirstNumber()
    ensures ValidateExperience("3 years") == Some(3)
  {
    ValidateExperienceReadsFirstRun("3 years");
    assert FirstDigitRun("3 years", 0, 1);
    assert "3 years"[0..1] == "3";
  }

  /** A number above the bound rejects the answer even when a later one is in range. */
  lemma ExperienceAboveBound()
    ensures ValidateExperience("60 or 5") == None
  {
    var s := "60 or 5";
    assert Span(s, NotDigit) == 0;
    assert Span(s[2..], IsDigit) == 0 by { assert s[2..][0] == ' '; }
    assert Span(s[1..], IsDigit) == 1 by { assert s[1..][0] == '0' && s[1..][1..] == s[2..]; }
    assert Span(s, IsDigit) == 2;
    assert s[0..] == s && s[0..2] == "60";
    assert "60"[..1] == "6";
    assert NumeralValue("60") == 60;
  }

  /** Spelled-out numbers are not recognised. */
  lemma ExperienceNeedsDigits()
    ensures ValidateExperience("fifty") == None
  {
  }

  lemma FirstDigitRunUnique(s: string, i: int, j: int)
    requires FirstDigitRun(s, i, j)
    ensures forall i', j' :: FirstDigitRun(s, i', j') ==> i' == i && j' == j
  {
    forall i', j' | FirstDigitRun(s, i', j') ensures i' == i && j' == j {
      // each run starts with a digit, and no digit precedes the other's start
      assert s[i'..j'][0] == s[i'];
      assert s[i..j][0] == s[i];
      // each run ends at the first non-digit after the common start
      assert forall k :: i <= k < j ==> s[i..j][k - i] == s[k];
      assert forall k :: i' <= k < j' ==> s[i'..j'][k - i'] == s[k];
    }
  }

  // ---------------------------------------------------------------------------
  // is_exit_command
  // ---------------------------------------------------------------------------

  /** Some keyword of `keys` occurs in `text`. */
  predicate AnyOccurs(keys: seq<string>, text: string) {
    exists k :: k in keys && Contains(text, k)
  }

  /** `is_exit_command`: some exit keyword is a substring of the stripped, lower-cased text. */
  function IsExitCommand(text: string): (r: bool)
  {
    AnyOccurs(ExitKeywords, Lower(Strip(text)))
  }

  /** A job title containing "end" ends the session: the match is on substrings, not words. */
  lemma BackendEngineerExits()
    ensures IsExitCommand("Backend Engineer")
  {
    var t := "Backend Engineer";
    assert Lower(t)[4..7] == "end";
    ContainsAt(Lower(t), "end", 4);
    ExitOnKeywordAnywhere(t, "end");
  }

  /** A stretch that starts and ends with non-whitespace lies inside the stripped part. */
  lemma InsideContent(t: string, i: nat, n: nat)
    requires 0 < n && i + n <= |t| && !IsSpace(t[i]) && !IsSpace(t[i + n - 1])
    ensures LeadingSpaces(t) <= i && i + n <= ContentEnd(t)
  {
    LeadingSpacesAreSpaces(t);
    TrailingAreSpaces(t);
  }

  /** An occurrence of a word without whitespace survives stripping. */
  lemma ContainsAfterStrip(t: string, k: string)
    requires k != [] && forall i :: 0 <= i < |k| ==> !IsSpace(k[i])
    requires Contains(t, k)
    ensures Contains(Strip(t), k)
  {
    var i :| 0 <= i <= |t| && k <= t[i..];
    assert t[i..i + |k|] == k;
    assert !IsSpace(k[0]) && !IsSpace(k[|k| - 1]);
    OccurrenceSurvivesStrip(t, k, i);
  }

  /** An occurrence that starts and ends with non-whitespace survives stripping. */
  lemma OccurrenceSurvivesStrip(t: string, k: string, i: nat)
    requires k != [] && !IsSpace(k[0]) && !IsSpace(k[|k| - 1])
    requires i + |k| <= |t| && t[i..i + |k|] == k
    ensures Contains(Strip(t), k)
  {
    var n := |k|;
    assert t[i] == k[0] && t[i + n - 1] == k[n - 1];
    InsideContent(t, i, n);
    var lead, end := LeadingSpaces(t), ContentEnd(t);
    var stripped := Strip(t);
    assert stripped == t[lead..end];
    SliceOfSlice(t, lead, end, i, n);
    ContainsAt(stripped, k, i - lead);
  }

  /** Lower-casing keeps every occurrence of a lower-case word that is found case-insensitively. */
  lemma LowerStripCommutes(t: string)
    ensures Lower(Strip(t)) == Strip(Lower(t))
  {
    assert LeadingSpaces(Lower(t)) == LeadingSpaces(t) by {
      LeadingSpacesLower(t);
    }
    assert ContentEnd(Lower(t)) == ContentEnd(t) by {
      ContentEndLower(t);
    }
    TrailingAreSpaces(t);
    if LeadingSpaces(t) < |t| {
      assert Lower(t[LeadingSpaces(t)..ContentEnd(t)]) == Lower(t)[LeadingSpaces(t)..ContentEnd(t)];
    }
  }

  lemma {:induction false} LeadingSpacesLower(t: string)
    ensures LeadingSpaces(Lower(t)) == LeadingSpaces(t)
    decreases |t|
  {
    if t != [] {
      assert Lower(t)[1..] == Lower(t[1..]);
      LeadingSpacesLower(t[1..]);
    }
  }

  lemma {:induction false} ContentEndLower(t: string)
    ensures ContentEnd(Lower(t)) == ContentEnd(t)
    decreases |t|
  {
    if t != [] {
      assert Lower(t)[..|t| - 1] == Lower(t[..|t| - 1]);
      ContentEndLower(t[..|t| - 1]);
    }
  }

  /** Case and surrounding whitespace do not matter: any text whose lower-cased form contains an exit keyword is an exit command. */
  lemma ExitOnKeywordAnywhere(text: string, k: string)
    requires k in ExitKeywords
    requires Contains(Lower(text), k)
    ensures IsExitCommand(text)
  {
    ExitKeywordsLowerCase();
    assert forall i :: 0 <= i < |k| ==> !IsSpace(k[i]);
    ContainsAfterStrip(Lower(text), k);
    LowerStripCommutes(text);
  }

  // ---------------------------------------------------------------------------
  // extract_tech_stack
  // ---------------------------------------------------------------------------

  /** The categorised tech stack: key-to-list entries in insertion order (a Python dict). */
  type TechStack = seq<Category>

  /** The keys the classifier fills, in order; the fifth taxonomy category is not among them. */
  const OutputKeys: seq<string> := ["programming_languages", "frameworks", "databases", "tools"]

  /** The capitalised entries of `techs` that occur in `text`, in list order. */
  function Matched(techs: seq<string>, text: string): (r: seq<string>)
    ensures |r| <= |techs|
    decreases |techs|
  {
    if techs == [] then []
    else
      var last := techs[|techs| - 1];
      Matched(techs[..|techs| - 1], text) + (if Contains(text, last) then [Capitalize(last)] else [])
  }

  /** The taxonomy positions of the entries `Matched` keeps. */
  function MatchedPositions(techs: seq<string>, text: string): (r: seq<nat>)
    decreases |techs|
  {
    if techs == [] then []
    else
      var n := |techs| - 1;
      MatchedPositions(techs[..n], text) + (if Contains(text, techs[n]) then [n] else [])
  }

  /**
   * `Matched` lists, in strictly increasing taxonomy position, the capitalised
   * form of exactly the entries that occur in the text.
   */
  lemma {:induction false} MatchedInTaxonomyOrder(techs: seq<string>, text: string)
    ensures var r, pos := Matched(techs, text), MatchedPositions(techs, text);
      && |pos| == |r|
      && (forall k :: 0 <= k < |pos| ==> pos[k] < |techs| && r[k] == Capitalize(techs[pos[k]]))
      && (forall k :: 0 <= k < |pos| ==> Contains(text, techs[pos[k]]))
      && (forall k, l :: 0 <= k < l < |pos| ==> pos[k] < pos[l])
      && (forall n :: 0 <= n < |techs| && Contains(text, techs[n]) ==> n in pos)
    decreases |techs|
  {
    if techs != [] {
      var n := |techs| - 1;
      MatchedInTaxonomyOrder(techs[..n], text);
      var pos := MatchedPositions(techs[..n], text);
      assert forall m :: 0 <= m < n ==> techs[..n][m] == techs[m];
      assert forall k :: 0 <= k < |pos| ==> pos[k] < n;
    }
  }

  /** Every listed name comes from an entry found in the text, and every entry found is listed. */
  lemma MatchedMembership(techs: seq<string>, text: string, x: string)
    ensures x in Matched(techs, text) <==> exists n :: 0 <= n < |techs| && Contains(text, techs[n]) && x == Capitalize(techs[n])
  {
    MatchedInTaxonomyOrder(techs, text);
    var r, pos := Matched(techs, text), MatchedPositions(techs, text);
    if x in r {
      var k :| 0 <= k < |r| && r[k] == x;
      assert Contains(text, techs[pos[k]]);
    }
    if exists n :: 0 <= n < |techs| && Contains(text, techs[n]) && x == Capitalize(techs[n]) {
      var n :| 0 <= n < |techs| && Contains(text, techs[n]) && x == Capitalize(techs[n]);
      var k :| 0 <= k < |pos| && pos[k] == n;
      assert r[k] == x;
    }
  }

  /** A list with distinct lower-case entries yields no duplicate name. */
  lemma MatchedDistinct(techs: seq<string>, text: string)
    requires WellFormedList(techs)
    ensures Distinct(Matched(techs, text))
  {
    MatchedInTaxonomyOrder(techs, text);
    var r, pos := Matched(techs, text), MatchedPositions(techs, text);
    forall k, l | 0 <= k < l < |r| ensures r[k] != r[l] {
      if r[k] == r[l] {
        CapitalizeInjective(techs[pos[k]], techs[pos[l]]);
      }
    }
  }

  /** The specification of `extract_tech_stack`: the first four categories, each with its matches in the lower-cased text. */
  function TechStackOf(text: string): TechStack {
    var lowered := Lower(text);
    seq(4, i requires 0 <= i < 4 => Category(OutputKeys[i], Matched(TechCategories[i].technologies, lowered)))
  }

  lemma TechStackOfEntries(text: string, lowered: string, entries: TechStack)
    requires lowered == Lower(text) && |entries| == 4
    requires forall j :: 0 <= j < 4 ==> entries[j].key == OutputKeys[j]
    requires forall j :: 0 <= j < 4 ==> entries[j].technologies == Matched(TechCategories[j].technologies, lowered)
    ensures entries == TechStackOf(text)
  {
  }

  /** Index of the entry with key `key`, if any (the `category in extracted` test). */
  function KeyIndex(entries: TechStack, key: string): (r: Option<nat>)
    ensures r.Some? ==> r.value < |entries| && entries[r.value].key == key
    ensures r.None? ==> forall i :: 0 <= i < |entries| ==> entries[i].key != key
    ensures r.Some? ==> forall i :: 0 <= i < r.value ==> entries[i].key != key
    decreases |entries|
  {
    if entries == [] then None
    else if entries[0].key == key then Some(0)
    else match KeyIndex(entries[1..], key)
      case None => None
      case Some(i) => Some(i + 1)
  }

  /** The output keys are the first four taxonomy keys, in order; the fifth is not among them. */
  lemma OutputKeysFollowTaxonomy()
    ensures |OutputKeys| == 4 && |TechCategories| == 5
    ensures forall c :: 0 <= c < 4 ==> TechCategories[c].key == OutputKeys[c]
    ensures forall i, j :: 0 <= i < j < 4 ==> OutputKeys[i] != OutputKeys[j]
    ensures TechCategories[4].key !in OutputKeys
  {
  }

  /** Among entries keyed by the output keys, each of the first four categories finds its own slot and the fifth finds none. */
  lemma SlotOfCategory(entries: TechStack, c: nat)
    requires c < |TechCategories| && |entries| == 4
    requires forall j :: 0 <= j < 4 ==> entries[j].key == OutputKeys[j]
    ensures KeyIndex(entries, TechCategories[c].key) == if c < 4 then Some(c) else None
  {
    OutputKeysFollowTaxonomy();
  }

  /** The inner loop of `extract_tech_stack`: each entry found in the text is appended, capitalised, to the category's list. */
  method AppendMatches(found0: seq<string>, technologies: seq<string>, textLower: string) returns (found: seq<string>)
    ensures found == found0 + Matched(technologies, textLower)
  {
    found := found0;
    var t := 0;
    while t < |technologies|
      invariant 0 <= t <= |technologies|
      invariant found == found0 + Matched(technologies[..t], textLower)
    {
      var tech := technologies[t];
      assert technologies[..t + 1][..t] == technologies[..t];
      if Contains(textLower, tech) {
        found := found + [Capitalize(tech)];
      }
      t := t + 1;
    }
    assert technologies[..t] == technologies;
  }

  /** `extract_tech_stack`: one pass over the taxonomy, appending each entry found to its category's list. */
  method ExtractTechStack(text: string) returns (extracted: TechStack)
    ensures extracted == TechStackOf(text)
  {
    var textLower := Lower(text);
    extracted := [
      Category("programming_languages", []), Category("frameworks", []),
      Category("databases", []), Category("tools", [])];
    var c := 0;
    while c < |TechCategories|
      invariant 0 <= c <= |TechCategories|
      invariant |extracted| == 4
      invariant forall j :: 0 <= j < 4 ==> extracted[j].key == OutputKeys[j]
      invariant forall j :: 0 <= j < 4 ==>
        extracted[j].technologies == if j < c then Matched(TechCategories[j].technologies, textLower) else []
    {
      var category := TechCategories[c];
      var slot := KeyIndex(extracted, category.key);
      SlotOfCategory(extracted, c);
      if slot.Some? {
        var idx := slot.value;
        var found := AppendMatches(extracted[idx].technologies, category.technologies, textLower);
        extracted := extracted[idx := Category(extracted[idx].key, found)];
      }
      c := c + 1;
    }
    TechStackOfEntries(text, textLower, extracted);
  }

  /**
   * The classifier always reports exactly the four output keys, never the
   * fifth category; each list holds just the capitalised taxonomy entries that
   * occur in the lower-cased text, without duplicates.
   */
  lemma TechStackShape(text: string)
    ensures var ts := TechStackOf(text);
      && |ts| == 4
      && (forall i :: 0 <= i < 4 ==> ts[i].key == OutputKeys[i] && ts[i].key != "ai_ml")
      && (forall i :: 0 <= i < 4 ==> Distinct(ts[i].technologies))
      && (forall i, x :: 0 <= i < 4 ==>
            (x in ts[i].technologies <==>
              exists t :: t in TechCategories[i].technologies && Contains(Lower(text), t) && x == Capitalize(t)))
  {
    TaxonomyWellFormed();
    var ts := TechStackOf(text);
    forall i | 0 <= i < 4 ensures Distinct(ts[i].technologies) {
      MatchedDistinct(TechCategories[i].technologies, Lower(text));
    }
    forall i, x | 0 <= i < 4
      ensures x in ts[i].technologies <==>
        exists t :: t in TechCategories[i].technologies && Contains(Lower(text), t) && x == Capitalize(t)
    {
      var techs := TechCategories[i].technologies;
      MatchedMembership(techs, Lower(text), x);
      if exists t :: t in techs && Contains(Lower(text), t) && x == Capitalize(t) {
        var t :| t in techs && Contains(Lower(text), t) && x == Capitalize(t);
        var n :| 0 <= n < |techs| && techs[n] == t;
      }
    }
  }

  // ---------------------------------------------------------------------------
  // mask_sensitive_data
  // ---------------------------------------------------------------------------

  function Stars(n: nat): (r: string)
    ensures |r| == n && forall i :: 0 <= i < n ==> r[i] == '*'
  {
    seq(n, _ => '*')
  }

  /**
   * `mask_sensitive_data`.  `None` stands for the IndexError the source raises
   * on an e-mail whose user name is empty.
   */
  function MaskSensitiveData(data: string, dataType: string): (r: Option<string>)
  {
    if data == [] then Some([])
    else if dataType == "email" && |Split(data, '@')| == 2 then
      var user, domain := Split(data, '@')[0], Split(data, '@')[1];
      if |user| > 2 then Some([user[0]] + Stars(|user| - 2) + [user[|user| - 1]] + "@" + domain)
      else if user == [] then None
      else Some([user[0]] + "*" + "@" + domain)
    else if dataType == "phone" && |data| >= 4 then
      Some(Stars(|data| - 4) + data[|data| - 4..])
    else Some(data)
  }

  /** A phone number of four or more characters keeps only its last four characters; the rest become '*'. */
  lemma MaskPhone(data: string)
    requires |data| >= 4
    ensures var r := MaskSensitiveData(data, "phone");
      && r.Some? && |r.value| == |data|
      && r.value[|data| - 4..] == data[|data| - 4..]
      && forall i :: 0 <= i < |data| - 4 ==> r.value[i] == '*'
  {
  }

  /**
   * An address with a single '@' keeps its domain and the first character of
   * its user name; a user name longer than two also keeps its last character,
   * with '*' in between; a one- or two-character user name becomes its first
   * character and one '*'; an empty user name fails.
   */
  lemma MaskEmail(data: string)
    requires Count(data, '@') == 1
    ensures var at := IndexOf(data, '@');
      var r := MaskSensitiveData(data, "email");
      var domain := data[at + 1..];
      && (at == 0 ==> r.None?)
      && (at > 2 ==>
            && r.Some? && |r.value| == |data| && r.value[0] == data[0] && r.value[at - 1] == data[at - 1]
            && (forall i :: 1 <= i < at - 1 ==> r.value[i] == '*') && r.value[at..] == "@" + domain)
      && (0 < at <= 2 ==> r == Some([data[0], '*', '@'] + domain))
  {
    var at := IndexOf(data, '@');
    SplitOneAt(data);
    var user, domain := data[..at], data[at + 1..];
    if at > 2 {
      var m := [user[0]] + Stars(at - 2) + [user[at - 1]] + "@" + domain;
      assert MaskSensitiveData(data, "email") == Some(m);
      assert m[at..] == "@" + domain;
    } else if at > 0 {
      assert [user[0]] + "*" + "@" + domain == [data[0], '*', '@'] + domain;
    }
  }

  /** With a single '@', splitting yields the user name and the domain. */
  lemma SplitOneAt(data: string)
    requires Count(data, '@') == 1
    ensures var at := IndexOf(data, '@'); Split(data, '@') == [data[..at], data[at + 1..]]
  {
    var at := IndexOf(data, '@');
    var user, domain := data[..at], data[at + 1..];
    assert data == user + ['@'] + domain;
    CountConcat(user + ['@'], domain, '@');
    CountConcat(user, ['@'], '@');
    SplitAtOnly(user, domain, '@');
  }

  /** Types other than e-mail and phone, addresses without exactly one '@' and phones shorter than four characters are shown unchanged. */
  lemma MaskOtherUnchanged(data: string, dataType: string)
    requires dataType == "phone" ==> |data| < 4
    requires dataType == "email" ==> Count(data, '@') != 1
    ensures MaskSensitiveData(data, dataType) == Some(data)
  {
  }

  /** The address the assistant stores (validated, stripped) can always be masked. */
  lemma MaskValidEmail(email: string)
    requires ValidateEmail(email) && Strip(email) == email
    ensures MaskSensitiveData(email, "email").Some?
  {
    ValidateEmailMatchesPattern(email);
    ValidEmailHasOneAt(email);
    var at, dot :| EmailSplitAt(email, at, dot);
    var first := IndexOf(email, '@');
    if first < at {
      assert email[..at][first] == '@';
    }
    MaskEmail(email);
  }

  // ---------------------------------------------------------------------------
  // format_tech_stack_display
  // ---------------------------------------------------------------------------

  const NoTechnologies: string := "No specific technologies identified"

  /** The display label of each known category key. */
  function CategoryLabel(key: string): Option<string> {
    if key == "programming_languages" then Some("\U{1F4BB} Languages")
    else if key == "frameworks" then Some("\U{1F527} Frameworks")
    else if key == "databases" then Some("\U{1F5C4}\U{FE0F} Databases")
    else if key == "tools" then Some("\U{1F6E0}\U{FE0F} Tools")
    else None
  }

  /** An entry that gets a display line: a known key with a non-empty list. */
  predicate Displayed(e: Category) {
    e.technologies != [] && CategoryLabel(e.key).Some?
  }

  function DisplayLine(e: Category): string
    requires Displayed(e)
  {
    CategoryLabel(e.key).value + ": " + Join(e.technologies, ", ")
  }

  /** The display lines, one per displayed entry, in entry order. */
  function DisplayLines(entries: TechStack): (lines: seq<string>)
    ensures |lines| <= |entries|
    decreases |entries|
  {
    if entries == [] then []
    else
      var last := entries[|entries| - 1];
      DisplayLines(entries[..|entries| - 1]) + (if Displayed(last) then [DisplayLine(last)] else [])
  }

  /** The specification of `format_tech_stack_display`. */
  function TechStackDisplay(entries: TechStack): string {
    var lines := DisplayLines(entries);
    if entries == [] || lines == [] then NoTechnologies else Join(lines, "\n")
  }

  /** `format_tech_stack_display`: a loop appending one line per displayed entry, then a newline join. */
  method FormatTechStackDisplay(techStack: TechStack) returns (r: string)
    ensures r == TechStackDisplay(techStack)
  {
    if techStack == [] {
      return NoTechnologies;
    }
    var lines: seq<string> := [];
    var i := 0;
    while i < |techStack|
      invariant 0 <= i <= |techStack|
      invariant lines == DisplayLines(techStack[..i])
    {
      var entry := techStack[i];
      assert techStack[..i + 1][..i] == techStack[..i];
      if entry.technologies != [] && CategoryLabel(entry.key).Some? {
        var name := CategoryLabel(entry.key).value;
        lines := lines + [name + ": " + Join(entry.technologies, ", ")];
      }
      i := i + 1;
    }
    assert techStack[..i] == techStack;
    r := if lines != [] then Join(lines, "\n") else NoTechnologies;
  }

  /** There is one line per displayed entry, in order: a line is shown exactly when some entry is displayed with it. */
  lemma {:induction false} DisplayLinesMembership(entries: TechStack, line: string)
    ensures line in DisplayLines(entries) <==> exists e :: e in entries && Displayed(e) && line == DisplayLine(e)
    decreases |entries|
  {
    if entries != [] {
      var init := entries[..|entries| - 1];
      DisplayLinesMembership(init, line);
      assert entries == init + [entries[|entries| - 1]];
      if exists e :: e in entries && Displayed(e) && line == DisplayLine(e) {
        var e :| e in entries && Displayed(e) && line == DisplayLine(e);
        if e != entries[|entries| - 1] {
          assert e in init;
        }
      }
    }
  }

  lemma {:induction false} DisplayLinesEmpty(entries: TechStack)
    ensures DisplayLines(entries) == [] <==> forall e :: e in entries ==> !Displayed(e)
    decreases |entries|
  {
    if entries != [] {
      var init := entries[..|entries| - 1];
      DisplayLinesEmpty(init);
      assert entries == init + [entries[|entries| - 1]];
    }
  }

  /** The placeholder is shown exactly when no entry has a known key and a non-empty list. */
  lemma DisplayPlaceholder(entries: TechStack)
    ensures TechStackDisplay(entries) == NoTechnologies <==> forall e :: e in entries ==> !Displayed(e)
    ensures (exists e :: e in entries && Displayed(e)) ==> TechStackDisplay(entries) == Join(DisplayLines(entries), "\n")
  {
    DisplayLinesEmpty(entries);
    var lines := DisplayLines(entries);
    if lines != [] {
      var l := lines[0];
      DisplayLinesMembership(entries, l);
      var e :| e in entries && Displayed(e) && l == DisplayLine(e);
      DisplayLineStart(e);
      assert Join(lines, "\n")[0] == l[0];
    }
  }

  /** A display line opens with its label's symbol, which the placeholder does not. */
  lemma DisplayLineStart(e: Category)
    requires Displayed(e)
    ensures DisplayLine(e) != [] && DisplayLine(e)[0] != NoTechnologies[0]
  {
    var symbol := CategoryLabel(e.key).value;
    assert symbol[0] != 'N';
    assert DisplayLine(e)[0] == symbol[0];
  }

  // ---------------------------------------------------------------------------
  // sanitize_input
  // ---------------------------------------------------------------------------

  /** `[<>{}[\]\\]`: the characters the sanitiser deletes. */
  predicate IsForbidden(c: char) {
    c == '<' || c == '>' || c == '{' || c == '}' || c == '[' || c == ']' || c == '\\'
  }

  const MaxInputLength: nat := 1000

  /** `sanitize_input`: delete the forbidden characters, keep the first 1000 characters, strip. */
  function SanitizeInput(text: string): (r: string)
    ensures text == [] ==> r == []
    ensures |r| <= MaxInputLength
    ensures Trimmed(r)
  {
    if text == [] then []
    else
      var cleaned := Remove(text, IsForbidden);
      Strip(if |cleaned| <= MaxInputLength then cleaned else cleaned[..MaxInputLength])
  }

  /** No forbidden character survives sanitising. */
  lemma SanitizeRemovesForbidden(text: string)
    ensures forall i :: 0 <= i < |SanitizeInput(text)| ==> !IsForbidden(SanitizeInput(text)[i])
  {
    if text != [] {
      var cleaned := Remove(text, IsForbidden);
      RemoveKeeps(text, IsForbidden);
      var clipped := if |cleaned| <= MaxInputLength then cleaned else cleaned[..MaxInputLength];
      assert forall c :: c in clipped ==> c in cleaned;
      var r := SanitizeInput(text);
      assert forall i :: 0 <= i < |r| ==> r[i] in r;
    }
  }

  /** Sanitising twice is sanitising once. */
  lemma SanitizeIdempotent(text: string)
    ensures SanitizeInput(SanitizeInput(text)) == SanitizeInput(text)
  {
    var s := SanitizeInput(text);
    if s != [] {
      SanitizeRemovesForbidden(text);
      RemoveNothing(s, IsForbidden);
      StripTrimmed(s);
    }
  }

  // ---------------------------------------------------------------------------
  // save_candidate_data
  // ---------------------------------------------------------------------------

  /** One stored entry: a copy of the candidate data with its timestamp and sequential id. */
  datatype StoredRecord<T> = StoredRecord(info: T, timestamp: string, id: nat)

  /** Ids 1, 2, 3, ... in storage order. */
  predicate SequentialIds<T>(store: seq<StoredRecord<T>>) {
    forall i :: 0 <= i < |store| ==> store[i].id == i + 1
  }

  /**
   * `save_candidate_data` on the store's contents: `existing` is None when the
   * file is missing, empty, not a list or not valid JSON, all read as an empty list.
   */
  function SaveCandidateData<T>(existing: Option<seq<StoredRecord<T>>>, info: T, timestamp: string): (r: seq<StoredRecord<T>>)
    ensures var base := existing.GetOr([]);
      && |r| == |base| + 1
      && r[..|base|] == base
      && r[|base|] == StoredRecord(info, timestamp, |base| + 1)
  {
    var data := existing.GetOr([]);
    data + [StoredRecord(info, timestamp, |data| + 1)]
  }

  /** Appending keeps the ids sequential. */
  lemma SaveKeepsIdsSequential<T>(existing: Option<seq<StoredRecord<T>>>, info: T, timestamp: string)
    requires existing.Some? ==> SequentialIds(existing.value)
    ensures SequentialIds(SaveCandidateData(existing, info, timestamp))
  {
    var base := existing.GetOr([]);
    var r := SaveCandidateData(existing, info, timestamp);
    forall i | 0 <= i < |r| ensures r[i].id == i + 1 {
      if i < |base| { assert r[i] == r[..|base|][i]; }
    }
  }
}
