/**
  * The profile page: the name and the initials of the avatar, and the
  * all-time figures with their zero fallbacks. The page's `authFetch` is
  * `Session.AuthSession`.
  */
module Profile {
  import opened Wrappers
  import opened Js
  import opened Text
  import Session
  import Dashboard

  /** `user.user_metadata?.full_name || 'User'`; "" stands for a missing name. */
  function DisplayName(fullName: string): (name: string)
    ensures name != ""
    ensures fullName != "" ==> name == fullName
    ensures fullName == "" ==> name == "User"
  {
    if fullName != "" then fullName else "User"
  }

  /**
    * The avatar's initials: the first character of every space-separated word
    * of the displayed name, in upper case, at most two of them. Empty words
    * (from repeated, leading or trailing spaces) add nothing.
    */
  function Initials(fullName: string): (r: string)
    ensures |r| <= 2
    ensures var starts := Upper(WordStarts(DisplayName(fullName), ' ', true));
      r == if |starts| < 2 then starts else starts[..2]
  {
    var name := DisplayName(fullName);
    FirstCharsOfSplit(name, ' ');
    var initials := Upper(FirstChars(Split(name, ' ')));
    if |initials| < 2 then initials else initials[..2]
  }

  /** No character of the initials is a space, and each is an upper-cased start of a word. */
  lemma {:induction false} WordStartsAreLetters(s: string, atStart: bool)
    ensures ' ' !in WordStarts(s, ' ', atStart)
    ensures |WordStarts(s, ' ', atStart)| <= |s|
  {
    if s != [] {
      WordStartsAreLetters(s[1..], s[0] == ' ');
    }
  }

  lemma InitialsHaveNoSpaces(fullName: string)
    ensures ' ' !in Initials(fullName)
  {
    var starts := WordStarts(DisplayName(fullName), ' ', true);
    WordStartsAreLetters(DisplayName(fullName), true);
    assert forall i :: 0 <= i < |starts| ==> Upper(starts)[i] != ' ';
  }

  /** Without a name the avatar shows "U". */
  lemma NoNameInitial()
    ensures Initials("") == "U"
  {
    assert "User"[1..] == "ser";
    NoStartsInside("ser");
  }

  /** A two-word name gives the upper-cased first letters of both words. */
  lemma TwoWordInitials(first: string, last: string)
    requires first != [] && last != [] && ' ' !in first && ' ' !in last
    ensures Initials(first + " " + last) == [UpperChar(first[0]), UpperChar(last[0])]
  {
    var name, tail := first + " " + last, " " + last;
    assert name == first + tail && tail == [' '] + last && last + "" == last;
    ScanWord(first, tail, true);
    WordStartsCons(' ', last, false);
    ScanWord(last, "", true);
    assert WordStarts(name, ' ', true) == [first[0], last[0]];
  }

  /** The word start contributed by `c` when `atStart` says whether a separator precedes it. */
  function HeadStart(c: char, atStart: bool): string {
    if atStart && c != ' ' then [c] else ""
  }

  /** Scanning past a word without spaces contributes at most its first letter, and leaves the scan inside a word. */
  lemma {:induction false} ScanWord(w: string, rest: string, atStart: bool)
    requires w != [] && ' ' !in w
    ensures WordStarts(w + rest, ' ', atStart) == HeadStart(w[0], atStart) + WordStarts(rest, ' ', false)
  {
    var tail := w[1..];
    assert w + rest == [w[0]] + (tail + rest);
    WordStartsCons(w[0], tail + rest, atStart);
    if tail == [] {
      assert tail + rest == rest;
    } else {
      ScanWord(tail, rest, false);
    }
  }

  /** One step of the scan. */
  lemma WordStartsCons(c: char, s: string, atStart: bool)
    ensures WordStarts([c] + s, ' ', atStart) == (if atStart && c != ' ' then [c] else "") + WordStarts(s, ' ', c == ' ')
  {
    assert ([c] + s)[1..] == s;
  }

  /** Inside a word, after its first letter, no word starts. */
  lemma {:induction false} NoStartsInside(s: string)
    requires ' ' !in s
    ensures WordStarts(s, ' ', false) == ""
  {
    if s != [] {
      NoStartsInside(s[1..]);
    }
  }

  /** The three all-time figures as shown. */
  datatype ProfileFigures = ProfileFigures(count: Value, income: Value, expense: Value)

  /**
    * `fetchProfileStats`: nothing is updated after a null or non-ok answer,
    * a network failure, or a body that is JSON null (reading `data.data` then
    * throws, and the catch swallows it); otherwise the figures of `data.data || data`, the
    * count falling back to 0 only when it is null or undefined (`??`), the
    * amounts whenever they are falsy (`||`).
    */
  function ShownStats(r: Session.FetchResult): (shown: Option<ProfileFigures>)
    ensures shown.Some? <==> r.Returned? && Dashboard.Ok(r.response.status) && !Nullish(r.response.body)
    ensures shown.Some? ==>
      var data := r.response.body;
      var stats := if Truthy(Get(data, "data")) then Get(data, "data") else data;
      (Nullish(Get(stats, "transaction_count")) ==> shown.value.count == Num(0))
      && (!Nullish(Get(stats, "transaction_count")) ==> shown.value.count == Get(stats, "transaction_count"))
      && (Truthy(Get(stats, "income")) ==> shown.value.income == Get(stats, "income"))
      && (!Truthy(Get(stats, "income")) ==> shown.value.income == Num(0))
      && (Truthy(Get(stats, "expense")) ==> shown.value.expense == Get(stats, "expense"))
      && (!Truthy(Get(stats, "expense")) ==> shown.value.expense == Num(0))
  {
    if !r.Returned? || !Dashboard.Ok(r.response.status) || Nullish(r.response.body) then None
    else
      var data := r.response.body;
      var stats := Or(Get(data, "data"), data);
      Some(ProfileFigures(
        Coalesce(Get(stats, "transaction_count"), Num(0)),
        Or(Get(stats, "income"), Num(0)),
        Or(Get(stats, "expense"), Num(0))))
  }

  /**
    * The two fallbacks differ exactly on falsy values that are not null or
    * undefined, other than 0 itself: `false` or "" is shown as a count but
    * replaced by 0 as an amount.
    */
  lemma CountAndAmountFallbacksDiffer(v: Value)
    ensures Coalesce(v, Num(0)) != Or(v, Num(0)) <==> !Truthy(v) && !Nullish(v) && v != Num(0)
  {
  }
}
