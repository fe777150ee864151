/** The administrators' list of registered users: the loader adds each
    user's age, flat count and admin flag; the page filters and sorts the
    list and changes roles and deletes users in it. */
module AllUsers {
  import opened Common
  import opened Lists
  import opened FieldValidation

  /** A user as `GET /users/allUsers` returns it; absent fields are `None`. */
  datatype UserDocument = UserDocument(
    docId: string, firstName: string, lastName: string, email: string,
    birthDate: Option<string>, addedFlats: Option<seq<string>>, role: Option<string>)

  /** A user with the figures the page filters and sorts on. */
  datatype AugmentedUser = AugmentedUser(
    id: string, firstName: string, lastName: string, email: string, birthDate: Option<string>,
    age: int, publishedFlatsCount: nat, isAdmin: bool)

  datatype UsersLoad = UsersLoaded(users: seq<AugmentedUser>) | UsersRedirect(redirect: Redirect)

  /** `calculateAge(new Date(birthDate))`, or 0 without a birth date. */
  function AgeOf(birthDate: Option<string>, env: Env): (a: int)
    ensures !Truthy(birthDate) ==> a == 0
    ensures Truthy(birthDate) && env.parseDate(birthDate.value).None? ==> a == env.ageOf(InvalidDay)
    ensures Truthy(birthDate) && env.parseDate(birthDate.value).Some?
      ==> a == env.ageOf(Day(env.parseDate(birthDate.value).value))
  {
    if Truthy(birthDate) then
      env.ageOf(match env.parseDate(birthDate.value) case Some(t) => Day(t) case None => InvalidDay)
    else 0
  }

  /** The listed user keeps the document's id, names, email and birth
      date, and adds the age, the number of added flats and the admin flag. */
  function Augment(doc: UserDocument, env: Env): (u: AugmentedUser)
    ensures u.id == doc.docId && u.firstName == doc.firstName && u.lastName == doc.lastName
    ensures u.email == doc.email && u.birthDate == doc.birthDate
    ensures u.age == AgeOf(doc.birthDate, env)
    ensures u.publishedFlatsCount == if doc.addedFlats.Some? then |doc.addedFlats.value| else 0
    ensures u.isAdmin <==> doc.role == Some("admin")
  {
    AugmentedUser(doc.docId, doc.firstName, doc.lastName, doc.email, doc.birthDate,
      AgeOf(doc.birthDate, env),
      if doc.addedFlats.Some? then |doc.addedFlats.value| else 0,
      doc.role == Some("admin"))
  }

  /** `allUsersLoader`: without a session it sends the user to sign in, on a
      failed request to the home page; otherwise every user, in the order
      received, with id, age, flat count and admin flag filled in. */
  function AllUsersLoader(token: Option<string>, reply: Reply<seq<UserDocument>>, env: Env): (r: UsersLoad)
    ensures !Truthy(token) ==> r == UsersRedirect(Redirect("/login"))
    ensures Truthy(token) && reply.Fail? ==> r == UsersRedirect(Redirect("/"))
    ensures Truthy(token) && reply.Ok? ==>
      && r.UsersLoaded?
      && |r.users| == |reply.data|
      && forall i :: 0 <= i < |r.users| ==>
           && r.users[i].id == reply.data[i].docId
           && r.users[i].firstName == reply.data[i].firstName && r.users[i].lastName == reply.data[i].lastName
           && r.users[i].email == reply.data[i].email && r.users[i].birthDate == reply.data[i].birthDate
           && (r.users[i].isAdmin <==> reply.data[i].role == Some("admin"))
           && (!Truthy(reply.data[i].birthDate) ==> r.users[i].age == 0)
           && (Truthy(reply.data[i].birthDate) ==> r.users[i].age == AgeOf(reply.data[i].birthDate, env))
           && r.users[i].publishedFlatsCount == (if reply.data[i].addedFlats.Some? then |reply.data[i].addedFlats.value| else 0)
  {
    if !Truthy(token) then UsersRedirect(Redirect("/login"))
    else match reply
      case Fail(_, _) => UsersRedirect(Redirect("/"))
      case Ok(docs) => UsersLoaded(seq(|docs|, i requires 0 <= i < |docs| => Augment(docs[i], env)))
  }

  // ----- filters -----

  /** The filter fields; a field never set reads as empty. */
  function Get(filters: map<string, string>, name: string): string
  {
    if name in filters then filters[name] else ""
  }

  const EmptyFilters: map<string, string> :=
    map["userType" := "", "minAge" := "", "maxAge" := "", "minFlats" := "", "maxFlats" := ""]

  /** The user-type choice: admins, regular users, or anyone. */
  predicate TypeMatches(userType: string, u: AugmentedUser)
  {
    if userType == "admin" then u.isAdmin
    else if userType == "regular" then !u.isAdmin
    else true
  }

  /** An inclusive bound; a bound that is not a number (`None`) is ignored. */
  predicate AtLeast(bound: Option<int>, x: int)
  {
    bound.None? || x >= bound.value
  }

  predicate AtMost(bound: Option<int>, x: int)
  {
    bound.None? || x <= bound.value
  }

  /** The users the filters select. `parseInt` stands for JavaScript's
      `parseInt`, `None` for `NaN`. */
  function Selects(filters: map<string, string>, parseInt: string -> Option<int>): (r: AugmentedUser -> bool)
    ensures forall u :: r(u) ==> TypeMatches(Get(filters, "userType"), u)
    ensures forall u :: r(u) && parseInt(Get(filters, "minAge")).Some? ==> u.age >= parseInt(Get(filters, "minAge")).value
    ensures forall u :: r(u) && parseInt(Get(filters, "maxAge")).Some? ==> u.age <= parseInt(Get(filters, "maxAge")).value
    ensures forall u :: r(u) && parseInt(Get(filters, "minFlats")).Some? ==>
      u.publishedFlatsCount >= parseInt(Get(filters, "minFlats")).value
    ensures forall u :: r(u) && parseInt(Get(filters, "maxFlats")).Some? ==>
      u.publishedFlatsCount <= parseInt(Get(filters, "maxFlats")).value
    ensures parseInt("") == None && (forall k :: k in filters ==> filters[k] == "") ==> forall u :: r(u)
  {
    var r := (u: AugmentedUser) =>
      && TypeMatches(Get(filters, "userType"), u)
      && AtLeast(parseInt(Get(filters, "minAge")), u.age)
      && AtMost(parseInt(Get(filters, "maxAge")), u.age)
      && AtLeast(parseInt(Get(filters, "minFlats")), u.publishedFlatsCount)
      && AtMost(parseInt(Get(filters, "maxFlats")), u.publishedFlatsCount);
    assert parseInt("") == None && (forall k :: k in filters ==> filters[k] == "") ==> forall u :: r(u) by {
      if parseInt("") == None && (forall k :: k in filters ==> filters[k] == "") {
        assert Get(filters, "userType") == "" && Get(filters, "minAge") == "" && Get(filters, "maxAge") == "";
        assert Get(filters, "minFlats") == "" && Get(filters, "maxFlats") == "";
        forall u: AugmentedUser ensures r(u) {
          assert TypeMatches(Get(filters, "userType"), u);
          assert AtLeast(parseInt(Get(filters, "minAge")), u.age);
        }
      }
    }
    r
  }

  /** Filtering by `p` and then by `q` is filtering once by `r`, their
      conjunction. */
  lemma Narrow<T(!new)>(s: seq<T>, p: T -> bool, q: T -> bool, r: T -> bool)
    requires forall x :: r(x) == (p(x) && q(x))
    ensures Filter(Filter(s, p), q) == Filter(s, r)
  {
    FilterFilter(s, p, q);
    FilterExt(s, x => p(x) && q(x), r);
  }

  /** One step of `applyFilters`: `filtered.filter(q)` when `apply`,
      otherwise `filtered` as it is. Given the users so far selected by
      `p`, the step leaves those selected by `r`. */
  method NarrowIf(filtered: seq<AugmentedUser>, ghost all: seq<AugmentedUser>, ghost p: AugmentedUser -> bool,
                  apply: bool, q: AugmentedUser -> bool, ghost r: AugmentedUser -> bool)
    returns (narrowed: seq<AugmentedUser>)
    requires filtered == Filter(all, p)
    requires forall x :: r(x) == (p(x) && (apply ==> q(x)))
    ensures narrowed == Filter(all, r)
  {
    if apply {
      Narrow(all, p, q, r);
      narrowed := Filter(filtered, q);
    } else {
      FilterExt(all, p, r);
      narrowed := filtered;
    }
  }

  /** The filtering half of `applyFilters`: narrows a copy of the list
      one filter at a time, leaving the users the filters select, in their
      order. */
  method SelectUsers(all: seq<AugmentedUser>, filters: map<string, string>, parseInt: string -> Option<int>)
    returns (filtered: seq<AugmentedUser>)
    ensures filtered == Filter(all, Selects(filters, parseInt))
  {
    filtered := all;
    var minAge := parseInt(Get(filters, "minAge"));
    var maxAge := parseInt(Get(filters, "maxAge"));
    var minFlats := parseInt(Get(filters, "minFlats"));
    var maxFlats := parseInt(Get(filters, "maxFlats"));
    var userType := Get(filters, "userType");

    ghost var anyone := (u: AugmentedUser) => true;
    FilterAll(all, anyone);
    ghost var byType := (u: AugmentedUser) => TypeMatches(userType, u);
    if userType == "admin" {
      filtered := NarrowIf(filtered, all, anyone, true, (u: AugmentedUser) => u.isAdmin, byType);
    } else if userType == "regular" {
      filtered := NarrowIf(filtered, all, anyone, true, (u: AugmentedUser) => !u.isAdmin, byType);
    } else {
      filtered := NarrowIf(filtered, all, anyone, false, (u: AugmentedUser) => true, byType);
    }
    ghost var byMinAge := (u: AugmentedUser) => TypeMatches(userType, u) && AtLeast(minAge, u.age);
    filtered := NarrowIf(filtered, all, byType, minAge.Some?,
      (u: AugmentedUser) => minAge.Some? ==> u.age >= minAge.value, byMinAge);
    ghost var byMaxAge := (u: AugmentedUser) => TypeMatches(userType, u) && AtLeast(minAge, u.age) && AtMost(maxAge, u.age);
    filtered := NarrowIf(filtered, all, byMinAge, maxAge.Some?,
      (u: AugmentedUser) => maxAge.Some? ==> u.age <= maxAge.value, byMaxAge);
    ghost var byMinFlats := (u: AugmentedUser) =>
      TypeMatches(userType, u) && AtLeast(minAge, u.age) && AtMost(maxAge, u.age) && AtLeast(minFlats, u.publishedFlatsCount);
    filtered := NarrowIf(filtered, all, byMaxAge, minFlats.Some?,
      (u: AugmentedUser) => minFlats.Some? ==> u.publishedFlatsCount >= minFlats.value, byMinFlats);
    filtered := NarrowIf(filtered, all, byMinFlats, maxFlats.Some?,
      (u: AugmentedUser) => maxFlats.Some? ==> u.publishedFlatsCount <= maxFlats.value, Selects(filters, parseInt));
  }

  // ----- sorting -----

  /** The comparator that orders by a string field under `collate`. */
  function On(collate: (string, string) -> bool, field: AugmentedUser -> string): (AugmentedUser, AugmentedUser) -> bool
  {
    (a: AugmentedUser, b: AugmentedUser) => collate(field(a), field(b))
  }

  lemma OnPreorder(collate: (string, string) -> bool, field: AugmentedUser -> string)
    requires TotalPreorder(collate)
    ensures TotalPreorder(On(collate, field))
    ensures TotalPreorder(Reverse(On(collate, field)))
  {
    ReversePreorder(On(collate, field));
  }

  function FirstName(): AugmentedUser -> string { (u: AugmentedUser) => u.firstName }
  function LastName(): AugmentedUser -> string { (u: AugmentedUser) => u.lastName }
  function FlatsCount(): AugmentedUser -> int { (u: AugmentedUser) => u.publishedFlatsCount }

  const SortOptions := {"firstNameAsc", "firstNameDesc", "lastNameAsc", "lastNameDesc", "flatsCountAsc", "flatsCountDesc"}

  /** `sortUsers`: a reordered copy of the list. `collate` stands for
      `localeCompare(a, b) <= 0`. An unknown option keeps the order. */
  function SortUsers(list: seq<AugmentedUser>, option: string, collate: (string, string) -> bool): (r: seq<AugmentedUser>)
    requires TotalPreorder(collate)
    ensures multiset(r) == multiset(list)
    ensures option !in SortOptions ==> r == list
    ensures option == "firstNameAsc" ==> forall i, j :: 0 <= i < j < |r| ==> collate(r[i].firstName, r[j].firstName)
    ensures option == "firstNameDesc" ==> forall i, j :: 0 <= i < j < |r| ==> collate(r[j].firstName, r[i].firstName)
    ensures option == "lastNameAsc" ==> forall i, j :: 0 <= i < j < |r| ==> collate(r[i].lastName, r[j].lastName)
    ensures option == "lastNameDesc" ==> forall i, j :: 0 <= i < j < |r| ==> collate(r[j].lastName, r[i].lastName)
    ensures option == "flatsCountAsc" ==>
      forall i, j :: 0 <= i < j < |r| ==> r[i].publishedFlatsCount <= r[j].publishedFlatsCount
    ensures option == "flatsCountDesc" ==>
      forall i, j :: 0 <= i < j < |r| ==> r[i].publishedFlatsCount >= r[j].publishedFlatsCount
  {
    OnPreorder(collate, FirstName());
    OnPreorder(collate, LastName());
    SortByKeyAscending(list, FlatsCount());
    SortByKeyDescending(list, FlatsCount());
    match option
    case "firstNameAsc" => SortBy(list, On(collate, FirstName()))
    case "firstNameDesc" => SortBy(list, Reverse(On(collate, FirstName())))
    case "lastNameAsc" => SortBy(list, On(collate, LastName()))
    case "lastNameDesc" => SortBy(list, Reverse(On(collate, LastName())))
    case "flatsCountAsc" => SortBy(list, ByKey(FlatsCount()))
    case "flatsCountDesc" => SortBy(list, Reverse(ByKey(FlatsCount())))
    case _ => list
  }

  // ----- role changes -----

  /** The list with every user of that id given the admin flag `admin`. */
  function SetAdmin(list: seq<AugmentedUser>, userId: string, admin: bool): (r: seq<AugmentedUser>)
    ensures |r| == |list|
    ensures forall i :: 0 <= i < |r| ==> r[i] == if list[i].id == userId then list[i].(isAdmin := admin) else list[i]
  {
    seq(|list|, i requires 0 <= i < |list| => if list[i].id == userId then list[i].(isAdmin := admin) else list[i])
  }

  /** Toggling a user and toggling them back restores the list, provided
      the flag first passed was the user's own. */
  lemma ToggleBackRestores(list: seq<AugmentedUser>, userId: string, isAdmin: bool)
    requires forall i :: 0 <= i < |list| && list[i].id == userId ==> list[i].isAdmin == isAdmin
    ensures SetAdmin(SetAdmin(list, userId, !isAdmin), userId, isAdmin) == list
  {
    var r := SetAdmin(SetAdmin(list, userId, !isAdmin), userId, isAdmin);
    assert forall i :: 0 <= i < |list| ==> r[i] == list[i];
  }

  /** The users other than `id`, in their order. */
  function Without(id: string): AugmentedUser -> bool
  {
    (u: AugmentedUser) => u.id != id
  }

  /** Deleting a user removes every copy of that id and keeps every other
      user as often as before. */
  lemma {:induction false} DeleteRemovesExactly(list: seq<AugmentedUser>, id: string, u: AugmentedUser)
    ensures multiset(Filter(list, Without(id)))[u] == if u.id == id then 0 else multiset(list)[u]
  {
    FilterCount(list, Without(id), u);
  }

  const DeleteQuestion := "Are you sure you want to delete this user?"

  /** The page's state: the master list, the list shown, the filters, the
      sort option and the delete confirmation. */
  class AllUsersPage {
    var allUsers: seq<AugmentedUser>
    var users: seq<AugmentedUser>
    var filters: map<string, string>
    var sortOption: string
    var modalVisible: bool
    var modalMessage: string
    var deleteTargetId: Option<string>

    constructor (loaded: seq<AugmentedUser>)
      ensures allUsers == loaded && users == loaded
      ensures filters == EmptyFilters && sortOption == ""
      ensures !modalVisible && modalMessage == "" && deleteTargetId == None
    {
      allUsers := loaded;
      users := loaded;
      filters := EmptyFilters;
      sortOption := "";
      modalVisible := false;
      modalMessage := "";
      deleteTargetId := None;
    }

    /** `handleAdminToggle`: asks for the opposite role; once the server
        agrees, the users of that id get the opposite flag in both lists. */
    method HandleAdminToggle(userId: string, isAdmin: bool, reply: Reply<()>) returns (newRole: string)
      modifies this
      ensures newRole == if isAdmin then "user" else "admin"
      ensures reply.Ok? ==> allUsers == SetAdmin(old(allUsers), userId, !isAdmin) && users == SetAdmin(old(users), userId, !isAdmin)
      ensures reply.Fail? ==> allUsers == old(allUsers) && users == old(users)
      ensures filters == old(filters) && sortOption == old(sortOption)
      ensures modalVisible == old(modalVisible) && modalMessage == old(modalMessage) && deleteTargetId == old(deleteTargetId)
    {
      newRole := if isAdmin then "user" else "admin";
      if reply.Ok? {
        allUsers := SetAdmin(allUsers, userId, !isAdmin);
        users := SetAdmin(users, userId, !isAdmin);
      }
    }

    method ConfirmDeleteUser(userId: string)
      modifies this
      ensures deleteTargetId == Some(userId) && modalVisible && modalMessage == DeleteQuestion
      ensures allUsers == old(allUsers) && users == old(users) && filters == old(filters) && sortOption == old(sortOption)
    {
      deleteTargetId := Some(userId);
      modalVisible := true;
      modalMessage := DeleteQuestion;
    }

    /** `handleDeleteUser`: without a target nothing happens; otherwise the
        delete request goes out and, once it succeeds, the master list loses
        that user, the shown list becomes the master list and the
        confirmation closes. A failure changes nothing. */
    method HandleDeleteUser(reply: Reply<()>) returns (request: Option<string>)
      modifies this
      ensures !Truthy(old(deleteTargetId)) ==> request == None
      ensures Truthy(old(deleteTargetId)) ==> request == old(deleteTargetId)
      ensures request.Some? && reply.Ok? ==>
        && allUsers == Filter(old(allUsers), Without(request.value))
        && users == allUsers
        && deleteTargetId == None && !modalVisible && modalMessage == ""
      ensures request.None? || reply.Fail? ==>
        && allUsers == old(allUsers) && users == old(users)
        && deleteTargetId == old(deleteTargetId)
        && modalVisible == old(modalVisible) && modalMessage == old(modalMessage)
      ensures filters == old(filters) && sortOption == old(sortOption)
    {
      if !Truthy(deleteTargetId) {
        return None;
      }
      request := deleteTargetId;
      if reply.Ok? {
        var updated := Filter(allUsers, Without(deleteTargetId.value));
        allUsers := updated;
        users := updated;
        deleteTargetId := None;
        modalVisible := false;
        modalMessage := "";
      }
    }

    method CancelDelete()
      modifies this
      ensures !modalVisible && modalMessage == "" && deleteTargetId == None
      ensures allUsers == old(allUsers) && users == old(users) && filters == old(filters) && sortOption == old(sortOption)
    {
      modalVisible := false;
      modalMessage := "";
      deleteTargetId := None;
    }

    method HandleFilterChange(name: string, value: string)
      modifies this
      ensures filters == old(filters)[name := value]
      ensures allUsers == old(allUsers) && users == old(users) && sortOption == old(sortOption)
      ensures modalVisible == old(modalVisible) && modalMessage == old(modalMessage)
      ensures deleteTargetId == old(deleteTargetId)
    {
      filters := filters[name := value];
    }

    /** `applyFilters`: narrows a copy of the master list one filter at a
        time and shows it sorted by the current option. The result is the
        master list's selected users, in their order, then sorted. */
    method ApplyFilters(parseInt: string -> Option<int>, collate: (string, string) -> bool)
      requires TotalPreorder(collate)
      modifies this
      ensures users == SortUsers(Filter(allUsers, Selects(filters, parseInt)), sortOption, collate)
      ensures forall u :: u in users <==> u in allUsers && Selects(filters, parseInt)(u)
      ensures allUsers == old(allUsers) && filters == old(filters) && sortOption == old(sortOption)
      ensures modalVisible == old(modalVisible) && deleteTargetId == old(deleteTargetId)
      ensures modalMessage == old(modalMessage)
    {
      var filtered := SelectUsers(allUsers, filters, parseInt);

      users := SortUsers(filtered, sortOption, collate);
      forall u ensures u in users <==> u in filtered {
        assert u in users <==> u in multiset(users);
      }
    }

    /** `resetFilters`: empty filters, no sort, and the master list shown. */
    method ResetFilters()
      modifies this
      ensures filters == EmptyFilters && sortOption == "" && users == allUsers
      ensures allUsers == old(allUsers) && modalVisible == old(modalVisible) && deleteTargetId == old(deleteTargetId)
      ensures modalMessage == old(modalMessage)
    {
      filters := EmptyFilters;
      sortOption := "";
      users := allUsers;
    }

    /** `handleSortChange`: re-sorts the list shown, without filtering again. */
    method HandleSortChange(value: string, collate: (string, string) -> bool)
      requires TotalPreorder(collate)
      modifies this
      ensures sortOption == value && users == SortUsers(old(users), value, collate)
      ensures allUsers == old(allUsers) && filters == old(filters)
      ensures modalVisible == old(modalVisible) && deleteTargetId == old(deleteTargetId)
      ensures modalMessage == old(modalMessage)
    {
      sortOption := value;
      users := SortUsers(users, value, collate);
    }
  }

  /** Resetting shows what applying the empty filters with no sort would
      show: every user, in the master order. */
  lemma {:induction false} ResetIsEmptyApply(all: seq<AugmentedUser>, parseInt: string -> Option<int>, collate: (string, string) -> bool)
    requires TotalPreorder(collate)
    requires parseInt("") == None
    ensures SortUsers(Filter(all, Selects(EmptyFilters, parseInt)), "", collate) == all
  {
    assert Get(EmptyFilters, "userType") == "" && Get(EmptyFilters, "minAge") == "" && Get(EmptyFilters, "maxAge") == "";
    assert Get(EmptyFilters, "minFlats") == "" && Get(EmptyFilters, "maxFlats") == "";
    forall i | 0 <= i < |all|
      ensures Selects(EmptyFilters, parseInt)(all[i])
    {
      var u := all[i];
      assert TypeMatches(Get(EmptyFilters, "userType"), u);
      assert parseInt(Get(EmptyFilters, "minAge")) == None;
      assert AtLeast(parseInt(Get(EmptyFilters, "minAge")), u.age);
      assert AtMost(parseInt(Get(EmptyFilters, "maxAge")), u.age);
      assert AtLeast(parseInt(Get(EmptyFilters, "minFlats")), u.publishedFlatsCount);
      assert AtMost(parseInt(Get(EmptyFilters, "maxFlats")), u.publishedFlatsCount);
    }
    FilterAll(all, Selects(EmptyFilters, parseInt));
  }
}
