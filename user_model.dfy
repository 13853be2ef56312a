/**
 * Backend/models/User.js: the User schema's validation bounds, the users
 * collection as the authentication handlers use it, the count virtuals,
 * `memberSince`, the overdue pre-save hook and the document methods that
 * update the notification list and the wishlist in place.
 */
module UserModel {

  import opened Wrappers
  import opened Jwt
  import opened Text

  type ResourceId = string

  // ---------------------------------------------------------------------
  // Schema bounds
  // ---------------------------------------------------------------------

  /** A character of `/^[a-zA-Z0-9_]+$/`. */
  predicate IsWordChar(c: char)
  {
    'a' <= c <= 'z' || 'A' <= c <= 'Z' || '0' <= c <= '9' || c == '_'
  }

  /**
   * username: 3 to 30 characters, letters, digits and underscores only.
   * `minlength` and `maxlength` count UTF-16 code units, which for these
   * characters is the number of characters.
   */
  predicate UsernameOk(s: string)
  {
    3 <= Utf16Length(s) <= 30 && forall i :: 0 <= i < |s| ==> IsWordChar(s[i])
  }

  /** password: at least 6 UTF-16 code units. */
  predicate PasswordOk(s: string)
  {
    Utf16Length(s) >= 6
  }

  /** The identity fields of a user, as the authentication flow reads and writes them. */
  datatype Account = Account(
    id: UserId,
    email: string,
    username: string,
    password: string,
    contactNumber: string,
    version: nat)

  /**
   * The account as the schema's setters leave it: `trim: true` on
   * `username` and `contactNumber` removes white space at both ends before
   * validation and storage.
   */
  function Normalized(a: Account): (n: Account)
    ensures n.id == a.id && n.email == a.email && n.password == a.password && n.version == a.version
    ensures n.username == Trim(a.username) && n.contactNumber == Trim(a.contactNumber)
  {
    a.(username := Trim(a.username), contactNumber := Trim(a.contactNumber))
  }

  /**
   * Schema validation of a normalised account: the required paths are non-empty,
   * the email matches its pattern, username and password keep their bounds,
   * and a contact number, when given, matches its pattern.  The two
   * patterns are passed in as the predicates `isEmail` and `isPhone`.
   */
  predicate SchemaAccepts(a: Account, isEmail: string -> bool, isPhone: string -> bool)
  {
    && a.email != "" && isEmail(a.email)
    && a.username != "" && UsernameOk(a.username)
    && a.password != "" && PasswordOk(a.password)
    && (a.contactNumber == "" || isPhone(a.contactNumber))
  }

  /**
   * An accepted account satisfies the declared bounds: its username is 3 to
   * 30 word characters and its password at least 6 UTF-16 code units, which
   * may be as few as 3 characters.
   */
  lemma SchemaBounds(a: Account, isEmail: string -> bool, isPhone: string -> bool)
    requires SchemaAccepts(a, isEmail, isPhone)
    ensures 3 <= |a.username| <= 30 && Utf16Length(a.password) >= 6 && |a.password| >= 3
    ensures forall i :: 0 <= i < |a.username| ==> IsWordChar(a.username[i])
  {
  }

  /**
   * White space around a valid username or contact number is cut off before
   * validation: the padded username is accepted and stored as the bare one,
   * so it also collides with an account that already holds the bare one.
   */
  lemma {:induction false} NormalizedStripsPadding(a: Account, pre: string, post: string)
    requires IsBlank(pre) && IsBlank(post) && UsernameOk(a.username)
    ensures Normalized(a.(username := pre + a.username + post)).username == a.username
  {
    TrimPadded(pre, a.username, post);
  }

  /** A username with a leading space: refused as given, accepted once trimmed. */
  lemma PaddedUsernameExample()
    ensures !UsernameOk(" alice1") && UsernameOk(Trim(" alice1"))
  {
    var bare := ['a', 'l', 'i', 'c', 'e', '1'];
    assert " alice1" == [' '] + bare + [];
    assert !IsWordChar(" alice1"[0]);
    assert UsernameOk(bare) by {
      assert forall i :: 0 <= i < |bare| ==> IsWordChar(bare[i]);
    }
    NormalizedStripsPadding(Account("", "", bare, "", "", 0), [' '], []);
  }

  /** A document read by a query: `password` has `select: false`, `__v` is kept. */
  function QueryView(a: Account): (s: UserSnapshot)
    ensures s.id == a.id && s.password.None? && s.version == Some(a.version)
  {
    UserSnapshot(a.id, a.email, a.username, None, Some(a.version))
  }

  /** `toObject()` of a document that holds its password (just created, or read with `+password`). */
  function FullObject(a: Account): (s: UserSnapshot)
    ensures s.id == a.id && s.password == Some(a.password) && s.version == Some(a.version)
  {
    UserSnapshot(a.id, a.email, a.username, Some(a.password), Some(a.version))
  }

  /** The account registered under `email`, if any (unique in a valid collection). */
  ghost function AccountByEmail(accounts: map<UserId, Account>, email: string): (r: Option<Account>)
    ensures r.Some? ==> r.value.email == email && r.value in accounts.Values
    ensures r.None? ==> forall id :: id in accounts ==> accounts[id].email != email
  {
    if exists id :: id in accounts && accounts[id].email == email then
      var id :| id in accounts && accounts[id].email == email;
      Some(accounts[id])
    else None
  }

  /** The users collection: accounts by id, with unique emails and usernames. */
  class UserCollection {
    var accounts: map<UserId, Account>

    predicate Valid()
      reads this
    {
      && (forall id :: id in accounts ==> id != "" && accounts[id].id == id)
      && (forall i, j :: i in accounts && j in accounts && i != j ==>
            accounts[i].email != accounts[j].email && accounts[i].username != accounts[j].username)
    }

    constructor ()
      ensures Valid() && accounts == map[]
    {
      accounts := map[];
    }

    predicate HasEmail(email: string)
      reads this
    {
      exists id :: id in accounts && accounts[id].email == email
    }

    predicate HasUsername(username: string)
      reads this
    {
      exists id :: id in accounts && accounts[id].username == username
    }

    /** `User.findOne({ email })`. */
    method FindByEmail(email: string) returns (r: Option<Account>)
      requires Valid()
      ensures r.Some? <==> HasEmail(email)
      ensures r.Some? ==> r.value.id in accounts && accounts[r.value.id] == r.value && r.value.email == email
      ensures r == AccountByEmail(accounts, email)
    {
      if HasEmail(email) {
        var id :| id in accounts && accounts[id].email == email;
        r := Some(accounts[id]);
        ghost var id' :| id' in accounts && accounts[id'].email == email && AccountByEmail(accounts, email) == Some(accounts[id']);
        assert id == id';
      } else {
        r := None;
      }
    }

    /** `User.findById(id)`. */
    method FindById(id: UserId) returns (r: Option<Account>)
      ensures r.Some? <==> id in accounts
      ensures r.Some? ==> r.value == accounts[id]
    {
      if id in accounts {
        r := Some(accounts[id]);
      } else {
        r := None;
      }
    }

    /**
     * `User.create(fields)`, `a.id` being the generated id: username and
     * contact number are trimmed, then the account is rejected when
     * validation fails or a unique index (id, email, username) is hit.
     * Validation sees the plain password; the pre-save hook then stores
     * `hash` of it (bcrypt with a fresh salt, passed in as a function).
     */
    method Create(a: Account, hash: string -> string, isEmail: string -> bool, isPhone: string -> bool)
      returns (ok: bool)
      requires Valid()
      modifies this
      ensures Valid()
      ensures ok <==> SchemaAccepts(Normalized(a), isEmail, isPhone) && a.id != "" && a.id !in old(accounts)
                      && !old(HasEmail(a.email)) && !old(HasUsername(Trim(a.username)))
      ensures accounts == if ok then old(accounts)[a.id := Normalized(a).(password := hash(a.password))] else old(accounts)
    {
      var n := a.(username := Trim(a.username), contactNumber := Trim(a.contactNumber));
      ok := SchemaAccepts(n, isEmail, isPhone) && n.id != "" && n.id !in accounts
            && !HasEmail(n.email) && !HasUsername(n.username);
      if ok {
        accounts := accounts[n.id := n.(password := hash(n.password))];
      }
    }
  }

  // ---------------------------------------------------------------------
  // Sub-documents
  // ---------------------------------------------------------------------

  datatype UploadStatus = Active | Rented | Sold | Inactive
  datatype Upload = Upload(resourceId: ResourceId, uploadedAt: int, status: UploadStatus)

  datatype BorrowStatus = Borrowed | Returned | Overdue
  /** A borrowed resource; times are milliseconds, `returnedAt` is unset until it comes back. */
  datatype Borrow = Borrow(
    resourceId: ResourceId,
    borrowedAt: int,
    dueDate: int,
    returnedAt: Option<int>,
    status: BorrowStatus,
    rentAmount: real)

  datatype Purchase = Purchase(resourceId: ResourceId, purchasedAt: int, purchaseAmount: real)

  datatype NotificationKind = Rental | Message | System | Payment | Review
  /** A notification; `id` is the sub-document's `_id` as a string. */
  datatype Notification = Notification(
    id: string,
    kind: NotificationKind,
    message: string,
    read: bool,
    createdAt: int,
    relatedResourceId: Option<ResourceId>)

  const MaxNotifications: nat := 50

  // ---------------------------------------------------------------------
  // Specification functions of the in-place updates
  // ---------------------------------------------------------------------

  /** The number of notifications with `read` false. */
  function CountUnread(ns: seq<Notification>): (n: nat)
    ensures n <= |ns|
  {
    if ns == [] then 0 else (if ns[0].read then 0 else 1) + CountUnread(ns[1..])
  }

  /** The overdue hook's test: still borrowed, due before `now`, not returned. */
  predicate IsOverdue(b: Borrow, now: int)
  {
    b.status == Borrowed && b.dueDate < now && b.returnedAt.None?
  }

  /** The borrowed list after the overdue hook ran at `now`. */
  function MarkedOverdue(bs: seq<Borrow>, now: int): (r: seq<Borrow>)
    ensures |r| == |bs|
  {
    seq(|bs|, i requires 0 <= i < |bs| => if IsOverdue(bs[i], now) then bs[i].(status := Overdue) else bs[i])
  }

  /** The notification list after `unshift(n)` and truncation to the first 50. */
  function WithNotification(ns: seq<Notification>, n: Notification): seq<Notification>
  {
    var all := [n] + ns;
    if |all| > MaxNotifications then all[..MaxNotifications] else all
  }

  /** The notification list after marking every notification whose id is listed. */
  function MarkedRead(ns: seq<Notification>, ids: seq<string>): (r: seq<Notification>)
    ensures |r| == |ns|
  {
    seq(|ns|, i requires 0 <= i < |ns| => if ns[i].id in ids then ns[i].(read := true) else ns[i])
  }

  /** The wishlist without any element equal to `r` (`filter` by string value). */
  function Without(w: seq<ResourceId>, r: ResourceId): seq<ResourceId>
  {
    if w == [] then [] else (if w[0] == r then [] else [w[0]]) + Without(w[1..], r)
  }

  /** `sub` is `s` with some elements dropped, the rest in their order. */
  predicate IsSubsequence<T(==)>(sub: seq<T>, s: seq<T>)
    decreases |s|
  {
    if s == [] then sub == []
    else (sub != [] && sub[0] == s[0] && IsSubsequence(sub[1..], s[1..])) || IsSubsequence(sub, s[1..])
  }

  // ---------------------------------------------------------------------
  // Properties of the updates
  // ---------------------------------------------------------------------

  /**
   * addNotification: the new entry is first, the previous entries follow in
   * their order, and at most 50 remain.
   */
  lemma WithNotificationShape(ns: seq<Notification>, n: Notification)
    ensures var r := WithNotification(ns, n);
      && |r| == (if |ns| + 1 > MaxNotifications then MaxNotifications else |ns| + 1)
      && r[0] == n
      && r[1..] == ns[..|r| - 1]
  {
  }

  /** Adding an unread notification raises the unread count by one unless the cap drops an unread entry. */
  lemma {:induction false} WithNotificationUnread(ns: seq<Notification>, n: Notification)
    requires !n.read && |ns| < MaxNotifications
    ensures CountUnread(WithNotification(ns, n)) == CountUnread(ns) + 1
  {
    assert WithNotification(ns, n) == [n] + ns;
    assert ([n] + ns)[1..] == ns;
  }

  /** markNotificationsAsRead changes only the `read` flag of listed entries, and never clears it. */
  lemma MarkedReadPointwise(ns: seq<Notification>, ids: seq<string>, i: int)
    requires 0 <= i < |ns|
    ensures var r := MarkedRead(ns, ids);
      && r[i].read == (ns[i].read || ns[i].id in ids)
      && r[i].(read := ns[i].read) == ns[i]
  {
  }

  /** Marking the same ids twice is marking them once. */
  lemma MarkedReadIdempotent(ns: seq<Notification>, ids: seq<string>)
    ensures MarkedRead(MarkedRead(ns, ids), ids) == MarkedRead(ns, ids)
  {
  }

  /** Marking never raises the unread count, and marking every id empties it. */
  lemma {:induction false} MarkedReadUnread(ns: seq<Notification>, ids: seq<string>)
    ensures CountUnread(MarkedRead(ns, ids)) <= CountUnread(ns)
    ensures (forall i :: 0 <= i < |ns| ==> ns[i].id in ids) ==> CountUnread(MarkedRead(ns, ids)) == 0
  {
    if ns != [] {
      MarkedReadUnread(ns[1..], ids);
      assert MarkedRead(ns, ids)[1..] == MarkedRead(ns[1..], ids);
    }
  }

  /** The overdue hook changes exactly the eligible entries, only their status, and is idempotent. */
  lemma MarkedOverdueProperties(bs: seq<Borrow>, now: int)
    ensures forall i :: 0 <= i < |bs| ==>
      (IsOverdue(bs[i], now) ==> MarkedOverdue(bs, now)[i] == bs[i].(status := Overdue))
      && (!IsOverdue(bs[i], now) ==> MarkedOverdue(bs, now)[i] == bs[i])
    ensures MarkedOverdue(MarkedOverdue(bs, now), now) == MarkedOverdue(bs, now)
    ensures forall i :: 0 <= i < |bs| ==> !IsOverdue(MarkedOverdue(bs, now)[i], now)
  {
  }

  /** removeFromWishlist leaves no element equal to `r`, keeps every other one, and keeps their order. */
  lemma {:induction false} WithoutProperties(w: seq<ResourceId>, r: ResourceId)
    ensures r !in Without(w, r)
    ensures forall x :: x in w && x != r ==> x in Without(w, r)
    ensures IsSubsequence(Without(w, r), w)
    ensures r !in w ==> Without(w, r) == w
  {
    if w != [] {
      WithoutProperties(w[1..], r);
      var rest := Without(w[1..], r);
      if w[0] == r {
        assert Without(w, r) == rest;
      } else {
        assert Without(w, r) == [w[0]] + rest;
        assert ([w[0]] + rest)[1..] == rest;
      }
    }
  }

  // ---------------------------------------------------------------------
  // memberSince
  // ---------------------------------------------------------------------

  /** `getMonth()`: 0 for January to 11 for December. */
  type Month = m: int | 0 <= m < 12

  /** The calendar year and month of a date, in the server's local time. */
  datatype YearMonth = YearMonth(year: int, month: Month)

  /** The years and months between creation and `now`, borrowing a year when the months go negative. */
  function MembershipSpan(now: YearMonth, created: YearMonth): (span: (int, int))
    ensures 0 <= span.1 <= 11
    ensures span.0 * 12 + span.1 == (now.year * 12 + now.month) - (created.year * 12 + created.month)
  {
    var years := now.year - created.year;
    var months := now.month - created.month;
    if months < 0 then (years - 1, months + 12) else (years, months)
  }

  /** "N year" or "N years". */
  function Counted(n: nat, unit: string): string
  {
    NatToString(n) + " " + unit + (if n > 1 then "s" else "")
  }

  /** The `memberSince` virtual, with the current date passed in. */
  function MemberSince(now: YearMonth, created: YearMonth): (text: string)
    ensures text != ""
  {
    var (years, months) := MembershipSpan(now, created);
    var yearPart := if years > 0 then [Counted(years, "year")] else [];
    var parts := yearPart + (if months > 0 || yearPart == [] then [Counted(months, "month")] else []);
    JoinStartsWithFirst(parts, ", ");
    Join(parts, ", ")
  }

  /** A member of less than a month reads "0 month"; a whole number of years omits the months. */
  lemma MemberSinceExamples()
    ensures MemberSince(YearMonth(2024, 5), YearMonth(2024, 5)) == "0 month"
    ensures MemberSince(YearMonth(2025, 2), YearMonth(2023, 2)) == "2 years"
    ensures MemberSince(YearMonth(2025, 0), YearMonth(2023, 11)) == "1 year, 1 month"
  {
    assert MembershipSpan(YearMonth(2025, 0), YearMonth(2023, 11)) == (1, 1);
    assert Counted(1, "year") == "1 year" && Counted(1, "month") == "1 month";
    assert Join(["1 year", "1 month"], ", ") == "1 year" + ", " + Join(["1 month"], ", ");
  }

  // ---------------------------------------------------------------------
  // The user document
  // ---------------------------------------------------------------------

  /** One user document with the arrays its hooks and methods update in place. */
  class UserDocument {
    var uploadedResources: seq<Upload>
    var borrowedResources: seq<Borrow>
    var purchasedResources: seq<Purchase>
    var wishlist: seq<ResourceId>
    var notifications: seq<Notification>
    var createdAt: YearMonth

    constructor (createdAt: YearMonth)
      ensures this.createdAt == createdAt
      ensures uploadedResources == [] && borrowedResources == [] && purchasedResources == []
      ensures wishlist == [] && notifications == []
    {
      this.createdAt := createdAt;
      uploadedResources, borrowedResources, purchasedResources := [], [], [];
      wishlist, notifications := [], [];
    }

    /** The `totalUploads` virtual. */
    function TotalUploads(): (n: nat)
      reads this
      ensures n == |uploadedResources|
    {
      |uploadedResources|
    }

    /** The `totalBorrows` virtual. */
    function TotalBorrows(): (n: nat)
      reads this
      ensures n == |borrowedResources|
    {
      |borrowedResources|
    }

    /** The `totalPurchases` virtual. */
    function TotalPurchases(): (n: nat)
      reads this
      ensures n == |purchasedResources|
    {
      |purchasedResources|
    }

    /** The `unreadNotifications` virtual. */
    function UnreadNotifications(): (n: nat)
      reads this
      ensures n <= |notifications|
      ensures n == 0 <==> forall i :: 0 <= i < |notifications| ==> notifications[i].read
    {
      UnreadIsZero(notifications);
      CountUnread(notifications)
    }

    /** The overdue pre-save hook at time `now`; `save()` runs it after every method below. */
    method MarkOverdue(now: int)
      modifies this
      ensures borrowedResources == MarkedOverdue(old(borrowedResources), now)
      ensures notifications == old(notifications) && wishlist == old(wishlist)
      ensures uploadedResources == old(uploadedResources) && purchasedResources == old(purchasedResources)
      ensures createdAt == old(createdAt)
    {
      var i := 0;
      while i < |borrowedResources|
        invariant 0 <= i <= |borrowedResources| == |old(borrowedResources)|
        invariant forall k :: 0 <= k < i ==> borrowedResources[k] == MarkedOverdue(old(borrowedResources), now)[k]
        invariant forall k :: i <= k < |borrowedResources| ==> borrowedResources[k] == old(borrowedResources)[k]
        invariant notifications == old(notifications) && wishlist == old(wishlist)
        invariant uploadedResources == old(uploadedResources) && purchasedResources == old(purchasedResources)
        invariant createdAt == old(createdAt)
      {
        var borrow := borrowedResources[i];
        if borrow.status == Borrowed && borrow.dueDate < now && borrow.returnedAt.None? {
          borrowedResources := borrowedResources[i := borrow.(status := Overdue)];
        }
        i := i + 1;
      }
    }

    /** addNotification, then `save()` at `now`; `id` is the generated sub-document id. */
    method AddNotification(kind: NotificationKind, message: string, resourceId: Option<ResourceId>, id: string, now: int)
      modifies this
      ensures notifications == WithNotification(old(notifications), Notification(id, kind, message, false, now, resourceId))
      ensures |notifications| <= MaxNotifications && notifications[0].id == id && !notifications[0].read
      ensures borrowedResources == MarkedOverdue(old(borrowedResources), now)
      ensures wishlist == old(wishlist)
      ensures uploadedResources == old(uploadedResources) && purchasedResources == old(purchasedResources)
      ensures createdAt == old(createdAt)
    {
      notifications := [Notification(id, kind, message, false, now, resourceId)] + notifications;
      if |notifications| > MaxNotifications {
        notifications := notifications[..MaxNotifications];
      }
      MarkOverdue(now);
    }

    /** markNotificationsAsRead, then `save()` at `now`. */
    method MarkNotificationsAsRead(ids: seq<string>, now: int)
      modifies this
      ensures notifications == MarkedRead(old(notifications), ids)
      ensures borrowedResources == MarkedOverdue(old(borrowedResources), now)
      ensures wishlist == old(wishlist)
      ensures uploadedResources == old(uploadedResources) && purchasedResources == old(purchasedResources)
      ensures createdAt == old(createdAt)
    {
      var i := 0;
      while i < |notifications|
        invariant 0 <= i <= |notifications| == |old(notifications)|
        invariant forall k :: 0 <= k < i ==> notifications[k] == MarkedRead(old(notifications), ids)[k]
        invariant forall k :: i <= k < |notifications| ==> notifications[k] == old(notifications)[k]
        invariant borrowedResources == old(borrowedResources) && wishlist == old(wishlist)
        invariant uploadedResources == old(uploadedResources) && purchasedResources == old(purchasedResources)
        invariant createdAt == old(createdAt)
      {
        if notifications[i].id in ids {
          notifications := notifications[i := notifications[i].(read := true)];
        }
        i := i + 1;
      }
      MarkOverdue(now);
    }

    /** addToWishlist, then `save()` at `now`. */
    method AddToWishlist(resourceId: ResourceId, now: int)
      modifies this
      ensures resourceId in wishlist
      ensures resourceId in old(wishlist) ==> wishlist == old(wishlist)
      ensures resourceId !in old(wishlist) ==> wishlist == old(wishlist) + [resourceId]
      ensures notifications == old(notifications)
      ensures borrowedResources == MarkedOverdue(old(borrowedResources), now)
      ensures uploadedResources == old(uploadedResources) && purchasedResources == old(purchasedResources)
      ensures createdAt == old(createdAt)
    {
      if resourceId !in wishlist {
        wishlist := wishlist + [resourceId];
      }
      MarkOverdue(now);
    }

    /** removeFromWishlist, then `save()` at `now`. */
    method RemoveFromWishlist(resourceId: ResourceId, now: int)
      modifies this
      ensures wishlist == Without(old(wishlist), resourceId)
      ensures notifications == old(notifications)
      ensures borrowedResources == MarkedOverdue(old(borrowedResources), now)
      ensures uploadedResources == old(uploadedResources) && purchasedResources == old(purchasedResources)
      ensures createdAt == old(createdAt)
    {
      wishlist := Without(wishlist, resourceId);
      MarkOverdue(now);
    }
  }

  /** No unread notification is left exactly when the count is zero. */
  lemma {:induction false} UnreadIsZero(ns: seq<Notification>)
    ensures CountUnread(ns) == 0 <==> forall i :: 0 <= i < |ns| ==> ns[i].read
  {
    if ns != [] {
      UnreadIsZero(ns[1..]);
      assert forall i :: 1 <= i < |ns| ==> ns[i] == ns[1..][i - 1];
    }
  }

  /** Adding to the wishlist keeps it free of duplicates and grows it by at most one. */
  lemma WishlistStaysDuplicateFree(w: seq<ResourceId>, r: ResourceId)
    requires forall i, j :: 0 <= i < j < |w| ==> w[i] != w[j]
    ensures var w' := if r in w then w else w + [r];
      && (forall i, j :: 0 <= i < j < |w'| ==> w'[i] != w'[j])
      && |w| <= |w'| <= |w| + 1
  {
  }
}
