/** The sign-in screen: logging in against the stored users (with a built-in demo account)
    and registering a new user, which appends to the stored list. */
module AuthScreen {
  import opened Wrappers
  import opened Text
  import opened Domain

  /** A stored user matches when its email equals the typed one ignoring case and its
      password equals the typed one exactly. */
  predicate Matches(u: UserProfile, email: string, password: string)
  {
    u.email.Some? && Lower(u.email.value) == Lower(email) && u.password == Some(password)
  }

  /** The search's verdict: the first matching position, no match, or a stored user
      without an email reached first (reading its email throws). */
  datatype Lookup = Found(index: nat) | NotFound | Throws(at: nat)

  /** The left-to-right search through the stored users. */
  function Find(users: seq<UserProfile>, email: string, password: string): (r: Lookup)
    ensures r.Found? ==>
      && r.index < |users| && Matches(users[r.index], email, password)
      && forall j :: 0 <= j < r.index ==> users[j].email.Some? && !Matches(users[j], email, password)
    ensures r.Throws? ==>
      && r.at < |users| && users[r.at].email.None?
      && forall j :: 0 <= j < r.at ==> users[j].email.Some? && !Matches(users[j], email, password)
    ensures r.NotFound? <==> forall j :: 0 <= j < |users| ==> users[j].email.Some? && !Matches(users[j], email, password)
    decreases |users|
  {
    if |users| == 0 then NotFound
    else if users[0].email.None? then Throws(0)
    else if Matches(users[0], email, password) then Found(0)
    else match Find(users[1..], email, password)
      case Found(i) => Found(i + 1)
      case NotFound => NotFound
      case Throws(i) => Throws(i + 1)
  }

  const DemoEmail := "demo@lima.co.ke"
  const DemoPassword := "1234"

  const DemoUser := UserProfile(Some("demo-user"), Some(DemoEmail), None, "Juma Hamisi", "Eldoret",
                                "2 Acres", "Loam", None, ["Maize", "Beans"], None)

  const InvalidLogin := "Invalid email or password"

  /** A login's end: the profile handed on, the error shown (loading cleared), or a search
      that threw and leaves the spinner running. */
  datatype AuthOutcome = SignedIn(profile: UserProfile) | Refused(error: string) | Stuck

  /** Login: the first matching stored user; failing that the demo account for its exact
      email and password; otherwise the error. */
  function HandleLogin(users: seq<UserProfile>, email: string, password: string): (o: AuthOutcome)
    ensures Find(users, email, password).Found? ==> o == SignedIn(users[Find(users, email, password).index])
    ensures Find(users, email, password).Throws? <==> o.Stuck?
    ensures Find(users, email, password).NotFound? ==>
      (if email == DemoEmail && password == DemoPassword then o == SignedIn(DemoUser) else o == Refused(InvalidLogin))
  {
    match Find(users, email, password)
    case Found(i) => SignedIn(users[i])
    case Throws(_) => Stuck
    case NotFound =>
      if email == DemoEmail && password == DemoPassword then SignedIn(DemoUser) else Refused(InvalidLogin)
  }

  /** The search reads the typed email only through its lower-case form. */
  lemma {:induction false} FindIgnoresEmailCase(users: seq<UserProfile>, e1: string, e2: string, password: string)
    requires Lower(e1) == Lower(e2)
    ensures Find(users, e1, password) == Find(users, e2, password)
    decreases |users|
  {
    if |users| > 0 {
      FindIgnoresEmailCase(users[1..], e1, e2, password);
    }
  }

  /** A signed-in profile is either a stored user matching the credentials or the demo
      account, and the demo account is used only for its exact credentials. */
  lemma SignedInMeansMatched(users: seq<UserProfile>, email: string, password: string)
    ensures HandleLogin(users, email, password).SignedIn? ==>
      (exists i :: 0 <= i < |users| && users[i] == HandleLogin(users, email, password).profile
                   && Matches(users[i], email, password))
      || (email == DemoEmail && password == DemoPassword && HandleLogin(users, email, password).profile == DemoUser)
  {
    var r := Find(users, email, password);
    if r.Found? {
      assert users[r.index] == HandleLogin(users, email, password).profile;
    }
  }

  /** With no stored users only the demo credentials sign in. */
  lemma EmptyStoreOnlyDemo(email: string, password: string)
    ensures HandleLogin([], email, password) ==
      if email == DemoEmail && password == DemoPassword then SignedIn(DemoUser) else Refused(InvalidLogin)
  {
  }

  const FillAllFields := "Please fill all fields"

  /** The account registration creates: id from the clock, defaults for the location and
      farm, and maize as the only crop. */
  function NewUser(email: string, password: string, name: string, location: string, now: nat): (u: UserProfile)
    ensures u.id == Some(Decimal(now)) && u.email == Some(email) && u.password == Some(password) && u.name == name
    ensures u.location == if location == "" then "Nairobi" else location
    ensures u.farmSize == "1 Acre" && u.soilType == "Loam" && u.crops == ["Maize"]
    ensures Matches(u, email, password)
  {
    UserProfile(Some(Decimal(now)), Some(email), Some(password), name,
                if location == "" then "Nairobi" else location, "1 Acre", "Loam", None, ["Maize"], None)
  }

  function HarvestsKey(id: string): string
  {
    "lima_data_" + id + "_harvests"
  }

  function ExpensesKey(id: string): string
  {
    "lima_data_" + id + "_expenses"
  }

  /** The browser's stored user list and the per-user data slots. */
  class UserStore {
    var users: seq<UserProfile>
    var data: map<string, string>

    constructor (users: seq<UserProfile>, data: map<string, string>)
      ensures this.users == users && this.data == data
    {
      this.users := users;
      this.data := data;
    }

    /** Registration: any empty email, password or name is refused and nothing is stored;
        otherwise the new user is appended (an existing email is not checked), its harvest
        and expense slots are set to empty lists, and the user is returned for sign-in. */
    method Register(email: string, password: string, name: string, location: string, now: nat)
      returns (r: Result<UserProfile, string>)
      modifies this
      ensures r.Failure? <==> email == "" || password == "" || name == ""
      ensures r.Failure? ==> r.error == FillAllFields && users == old(users) && data == old(data)
      ensures r.Success? ==>
        && r.value == NewUser(email, password, name, location, now)
        && users == old(users) + [r.value]
        && data == old(data)[HarvestsKey(Decimal(now)) := "[]"][ExpensesKey(Decimal(now)) := "[]"]
    {
      if email == "" || password == "" || name == "" {
        return Failure(FillAllFields);
      }
      var newUser := NewUser(email, password, name, location, now);
      users := users + [newUser];
      data := data[HarvestsKey(newUser.id.value) := "[]"];
      data := data[ExpensesKey(newUser.id.value) := "[]"];
      r := Success(newUser);
    }
  }

  /** Appending a user leaves the search's verdict alone when it had stopped earlier, and
      otherwise the appended user decides it. */
  lemma {:induction false} FindSnoc(users: seq<UserProfile>, u: UserProfile, email: string, password: string)
    ensures Find(users, email, password).Found? ==> Find(users + [u], email, password) == Find(users, email, password)
    ensures Find(users, email, password).Throws? ==> Find(users + [u], email, password) == Find(users, email, password)
    ensures Find(users, email, password).NotFound? && Matches(u, email, password) ==>
      Find(users + [u], email, password) == Found(|users|)
    decreases |users|
  {
    if |users| > 0 {
      assert (users + [u])[1..] == users[1..] + [u];
      FindSnoc(users[1..], u, email, password);
    }
  }

  /** A freshly registered user can log in with the same credentials (typed in any case),
      unless an earlier stored user already matches them, in which case that one signs in. */
  lemma RegisteredUserCanLogIn(users: seq<UserProfile>, email: string, password: string, name: string,
                               location: string, now: nat, typed: string)
    requires forall j :: 0 <= j < |users| ==> users[j].email.Some?
    requires Lower(typed) == Lower(email)
    ensures var stored := users + [NewUser(email, password, name, location, now)];
      HandleLogin(stored, typed, password).SignedIn?
      && Matches(HandleLogin(stored, typed, password).profile, email, password)
  {
    var u := NewUser(email, password, name, location, now);
    FindIgnoresEmailCase(users + [u], typed, email, password);
    FindSnoc(users, u, email, password);
  }

  /** The language button switches Swahili to English and every other language to Swahili. */
  function ToggleLanguage(lang: Language): (r: Language)
    ensures lang == Sw ==> r == En
    ensures lang != Sw ==> r == Sw
    ensures r != lang
  {
    if lang == Sw then En else Sw
  }
}
