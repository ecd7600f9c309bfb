/** The dashboard's derived text: the avatar initials, the card title and the
welcome greeting, all computed from the signed-in account.
 */
module Dashboard {
  import opened Wrappers
  import opened Text

  /** The signed-in account as the authentication context exposes it. */
  datatype Account = Account(name: Option<string>, email: Option<string>)

  /** JavaScript truthiness of an optional string: present and not empty. */
  predicate Truthy(s: Option<string>) {
    s.Some? && |s.value| > 0
  }

  /** The account has a name to show. */
  predicate HasName(user: Option<Account>) {
    user.Some? && Truthy(user.value.name)
  }

  const MaxInitials: nat := 2
  const UnknownInitial: string := "?"

  /** `getInitials`: with a name, the first letters of its space-separated
      words, upper-cased, at most two of them; without one, the upper-cased
      first character of the email; failing that, a question mark. */
  function Initials(user: Option<Account>): (r: string)
    ensures |r| <= MaxInitials
    ensures IsUpperCased(r)
    ensures HasName(user) ==> r == Take(Upper(WordStarts(user.value.name.value)), MaxInitials)
    ensures !HasName(user) && user.Some? && Truthy(user.value.email) ==>
      r == [UpperChar(user.value.email.value[0])]
    ensures !HasName(user) && (user.None? || !Truthy(user.value.email)) ==> r == UnknownInitial
  {
    if HasName(user) then
      var name := user.value.name.value;
      FirstCharsOfSplitAreWordStarts(name);
      Take(Upper(FirstChars(Split(name))), MaxInitials)
    else if user.Some? && Truthy(user.value.email) then
      [UpperChar(user.value.email.value[0])]
    else
      UnknownInitial
  }

  /** The initials come out empty exactly when the name is present but holds
      nothing but spaces: such a name is truthy, so the email fallback is not
      taken, yet it has no word to take a letter from. */
  lemma InitialsEmptyIffBlankName(user: Option<Account>)
    ensures Initials(user) == "" <==>
      HasName(user) && forall j :: 0 <= j < |user.value.name.value| ==> user.value.name.value[j] == Space
  {
    if HasName(user) {
      var name := user.value.name.value;
      NoWordStartsFromIffBlank(name, 0);
    }
  }

  /** The card title: the name, or "Welcome" when there is none. */
  function Title(user: Option<Account>): (r: string)
    ensures |r| > 0
    ensures HasName(user) ==> r == user.value.name.value
    ensures !HasName(user) ==> r == "Welcome"
  {
    if HasName(user) then user.value.name.value else "Welcome"
  }

  /** The first space-separated word of `name`. */
  function FirstWord(name: string): (w: string)
    ensures w <= name
    ensures Space !in w
    ensures |w| == |name| || name[|w|] == Space
  {
    FirstPieceIsLongestSpaceFreePrefix(name);
    Split(name)[0]
  }

  /** The greeting: "Welcome back, <first word of the name>!", or
      "Welcome back!" without a name. */
  function Greeting(user: Option<Account>): (r: string)
    ensures HasName(user) ==> r == "Welcome back, " + FirstWord(user.value.name.value) + "!"
    ensures !HasName(user) ==> r == "Welcome back!"
  {
    "Welcome back" + (if HasName(user) then ", " + FirstWord(user.value.name.value) else "") + "!"
  }

  /** Title and greeting read the same name: a named user is greeted by the
      first word of the title, the email never reaches either, and the title
      is the fallback "Welcome" only without a name or for the name itself. */
  lemma TitleAndGreetingAgree(user: Option<Account>, email: Option<string>)
    ensures Greeting(user) == if HasName(user) then "Welcome back, " + FirstWord(Title(user)) + "!" else "Welcome back!"
    ensures user.Some? ==> Title(Some(user.value.(email := email))) == Title(user)
    ensures Title(user) == "Welcome" <==> !HasName(user) || user.value.name.value == "Welcome"
  {
  }

  /** Only the first word of the name reaches the greeting: two names that
      agree up to and including their first space greet alike. */
  lemma GreetingUsesFirstWordOnly(first: string, rest1: string, rest2: string, email: Option<string>)
    requires Space !in first
    ensures Greeting(Some(Account(Some(first + [Space] + rest1), email)))
         == Greeting(Some(Account(Some(first + [Space] + rest2), email)))
  {
    SplitSpaceFreePrefix(first, [Space] + rest1);
    SplitSpaceFreePrefix(first, [Space] + rest2);
    assert Split([Space] + rest1)[0] == "";
    assert Split([Space] + rest2)[0] == "";
    assert first + "" == first;
    assert first + [Space] + rest1 == first + ([Space] + rest1);
    assert first + [Space] + rest2 == first + ([Space] + rest2);
  }
}
