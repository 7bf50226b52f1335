/** The signed-in Clerk user and the local `users` row every controller starts from. */
module Accounts {
  import opened Wrappers
  import Text
  import ClerkBilling

  /** A row of the `users` table; its timestamps are set by the database and left out. */
  datatype User = User(id: string, email: string, name: string, image: Option<string>, clerkId: string)

  /** What `currentUser()` yields for a signed-in user. */
  datatype ClerkUser = ClerkUser(
    id: string,
    emailAddresses: seq<string>,
    firstName: Option<string>,
    lastName: Option<string>,
    imageUrl: string,
    subscription: ClerkBilling.MetadataValue)

  /**
   * The guard each controller action opens with: no signed-in user, or no local user
   * for the Clerk id, ends the action with an error.
   */
  function Authenticate(current: Option<ClerkUser>, userByClerkId: string -> Option<User>): (r: ApiResponse<User>)
    ensures current.None? ==> r == Failure("User not authenticated")
    ensures current.Some? && userByClerkId(current.value.id).None? ==> r == Failure("User not found")
    ensures r.Success? <==> current.Some? && userByClerkId(current.value.id).Some?
    ensures r.Success? ==> r.data == userByClerkId(current.value.id).value
  {
    if current.None? then Failure("User not authenticated")
    else
      var dbUser := userByClerkId(current.value.id);
      if dbUser.None? then Failure("User not found") else Success(dbUser.value)
  }

  /** `${firstName || ""} ${lastName || ""}`.trim(): the name the platform stores for a Clerk user. */
  function DisplayName(firstName: Option<string>, lastName: Option<string>): (name: string)
    ensures |name| <= |OrElse(firstName, "")| + 1 + |OrElse(lastName, "")|
    ensures Text.Bare(name)
  {
    Text.TrimIsBare(OrElse(firstName, "") + " " + OrElse(lastName, ""));
    Text.Trim(OrElse(firstName, "") + " " + OrElse(lastName, ""))
  }

  /** With neither name part the display name is empty. */
  lemma DisplayNameOfNothing()
    ensures DisplayName(None, None) == ""
  {
    Text.TrimEmpty(" ");
  }

  /** Two bare name parts are joined by exactly one space. */
  lemma DisplayNameJoins(first: string, last: string)
    requires first != "" && last != "" && Text.Bare(first) && Text.Bare(last)
    ensures DisplayName(Some(first), Some(last)) == first + " " + last
  {
    var joined := first + " " + last;
    assert joined[0] == first[0] && joined[|joined| - 1] == last[|last| - 1];
    assert joined == "" + joined + "";
    Text.TrimUnique("", joined, "");
  }

  /** Without a last name the name is the trimmed first name. */
  lemma DisplayNameFirstOnly(firstName: Option<string>, lastName: Option<string>)
    requires !Truthy(lastName)
    ensures DisplayName(firstName, lastName) == Text.Trim(OrElse(firstName, ""))
  {
    var first := OrElse(firstName, "");
    assert first + " " + "" == first + " ";
    Text.TrimAppendSpace(first);
  }

  /** Without a first name the name is the trimmed last name. */
  lemma DisplayNameLastOnly(firstName: Option<string>, lastName: Option<string>)
    requires !Truthy(firstName)
    ensures DisplayName(firstName, lastName) == Text.Trim(OrElse(lastName, ""))
  {
    var last := OrElse(lastName, "");
    assert "" + " " + last == " " + last;
    Text.TrimPrependSpace(last);
  }

  /** The name is empty exactly when both parts are absent or whitespace. */
  lemma DisplayNameEmpty(firstName: Option<string>, lastName: Option<string>)
    ensures DisplayName(firstName, lastName) == ""
            <==> Text.AllSpace(OrElse(firstName, "")) && Text.AllSpace(OrElse(lastName, ""))
  {
    var first, last := OrElse(firstName, ""), OrElse(lastName, "");
    Text.TrimEmpty(first + " " + last);
    Text.AllSpaceJoin(first, last);
  }
}
