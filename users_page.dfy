/**
 * The users page: the loaded list, the search over it and the counts shown
 * above the table.
 */
module UsersPage {
  import opened Wrappers
  import opened Text
  import opened ListOps
  import RegisterForm

  /** A row of `GET /users`; the backend sends no role, and role and gender are read with `?.`. */
  datatype UserRow = UserRow(id: int, username: string, email: string, gender: Option<string>, role: Option<string>)

  /** `s?.toLowerCase().includes(needle)`: an absent value never matches. */
  predicate OptionalIncludes(s: Option<string>, needle: string) {
    s.Some? && Includes(ToLower(s.value), needle)
  }

  /** The search test over username, e-mail, role, gender and id. */
  predicate Matches(u: UserRow, needle: string) {
    Includes(ToLower(u.username), needle) || Includes(ToLower(u.email), needle)
    || OptionalIncludes(u.role, needle) || OptionalIncludes(u.gender, needle)
    || Includes(IntToString(u.id), needle)
  }

  /** `onSearch`'s result. */
  function SearchUsers(users: seq<UserRow>, term: string): (r: seq<UserRow>)
    ensures IsBlank(term) ==> r == users
    ensures !IsBlank(term) ==> r == Filter(users, (u: UserRow) => Matches(u, ToLower(term)))
    ensures IsSubsequence(r, users)
    ensures forall u :: u in r <==> u in users && (IsBlank(term) || Matches(u, ToLower(term)))
  {
    Search(users, term, (u: UserRow) => Matches(u, ToLower(term)))
  }

  /** A user without role or gender matches only on username, e-mail or id. */
  lemma AbsentFieldsNeverMatch(u: UserRow, needle: string)
    requires u.role.None? && u.gender.None?
    ensures Matches(u, needle) <==>
      Includes(ToLower(u.username), needle) || Includes(ToLower(u.email), needle) || Includes(IntToString(u.id), needle)
  {
  }

  /** `gender === 'Male'`, case-sensitive. */
  predicate IsMale(u: UserRow) {
    u.gender == Some("Male")
  }

  /** `gender === 'Female'`, case-sensitive. */
  predicate IsFemale(u: UserRow) {
    u.gender == Some("Female")
  }

  /** No user is counted both male and female, so the two counts never exceed the total. */
  lemma GenderCountsBounded(users: seq<UserRow>)
    ensures Count(users, IsMale) + Count(users, IsFemale) <= |users|
  {
    DisjointCounts(users, IsMale, IsFemale);
  }

  /**
   * A user who signed up on the register page with "Male" or "Female" has
   * the gender stored in lower case, so the page counts them as neither.
   */
  lemma SignedUpUserNotCounted(f: RegisterForm.SignupForm, id: int, role: Option<string>)
    requires f.gender == "Male" || f.gender == "Female"
    ensures var sent := RegisterForm.RegisterData(f);
      var row := UserRow(id, sent.username, sent.email, Some(sent.gender), role);
      !IsMale(row) && !IsFemale(row)
  {
    RegisterForm.SentGenderIsLowerCase(f);
    var g := RegisterForm.RegisterData(f).gender;
    assert !('A' <= g[0] <= 'Z');
  }

  class UserList {
    var users: seq<UserRow>
    var filteredUsers: seq<UserRow>
    var searchTerm: string
    var totalUsers: nat
    var maleUsers: nat
    var femaleUsers: nat
    var activeUsers: nat
    var isLoading: bool
    var loads: nat
    var alerts: seq<string>

    constructor ()
      ensures users == [] && filteredUsers == [] && searchTerm == []
      ensures totalUsers == 0 && maleUsers == 0 && femaleUsers == 0 && activeUsers == 0
      ensures !isLoading && loads == 0 && alerts == []
    {
      users := [];
      filteredUsers := [];
      searchTerm := [];
      totalUsers := 0;
      maleUsers := 0;
      femaleUsers := 0;
      activeUsers := 0;
      isLoading := false;
      loads := 0;
      alerts := [];
    }

    /** The figures agree with the list: totals are its length, gender counts fit inside it. */
    ghost predicate StatsValid()
      reads this
    {
      totalUsers == |users| && activeUsers == |users|
      && maleUsers == Count(users, IsMale) && femaleUsers == Count(users, IsFemale)
    }

    /** `loadUsers` sends the request. */
    method LoadUsers()
      modifies this`isLoading, this`loads
      ensures isLoading && loads == old(loads) + 1
    {
      isLoading := true;
      loads := loads + 1;
    }

    /** The list arrived: it is shown whole and the figures recomputed. */
    method OnUsersLoaded(data: seq<UserRow>)
      modifies this`users, this`filteredUsers, this`totalUsers, this`maleUsers, this`femaleUsers, this`activeUsers, this`isLoading
      ensures users == data && filteredUsers == data && !isLoading
      ensures StatsValid() && maleUsers + femaleUsers <= totalUsers
    {
      users := data;
      filteredUsers := data;
      CalculateStats();
      isLoading := false;
    }

    /** The request failed: the error dialog opens. */
    method OnLoadError()
      modifies this`isLoading, this`alerts
      ensures !isLoading && alerts == old(alerts) + ["Error!"]
    {
      isLoading := false;
      alerts := alerts + ["Error!"];
    }

    /** The error dialog closed: "Retry" loads again, "Cancel" does nothing. */
    method OnErrorDialogClosed(retry: bool)
      modifies this`isLoading, this`loads
      ensures retry ==> isLoading && loads == old(loads) + 1
      ensures !retry ==> isLoading == old(isLoading) && loads == old(loads)
    {
      if retry {
        LoadUsers();
      }
    }

    /** `calculateStats`. */
    method CalculateStats()
      modifies this`totalUsers, this`maleUsers, this`femaleUsers, this`activeUsers
      ensures StatsValid() && maleUsers + femaleUsers <= totalUsers
    {
      totalUsers := |users|;
      maleUsers := |Filter(users, IsMale)|;
      femaleUsers := |Filter(users, IsFemale)|;
      activeUsers := |users|;
      GenderCountsBounded(users);
    }

    method SetSearchTerm(term: string)
      modifies this`searchTerm
      ensures searchTerm == term
    {
      searchTerm := term;
    }

    /** `onSearch`. */
    method OnSearch()
      modifies this`filteredUsers
      ensures filteredUsers == SearchUsers(users, searchTerm)
    {
      filteredUsers := SearchUsers(users, searchTerm);
    }

    /** `clearSearch`: no term, and the whole list. */
    method ClearSearch()
      modifies this`searchTerm, this`filteredUsers
      ensures searchTerm == [] && filteredUsers == users
    {
      searchTerm := [];
      filteredUsers := users;
    }
  }
}
