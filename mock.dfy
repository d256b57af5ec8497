/** The mock API's in-memory store (users and posts changed in place), the
    `parseInt` its routes apply to path parameters, the status-code route and
    the status-message table. */
module MockApi {
  import opened Common

  // ---------------------------------------------------------------------------
  // parseInt(text) with no radix

  /** A number, or NaN when no digit follows the optional sign and prefix. */
  datatype ParsedInt = Num(n: int) | NaN

  /** White space and line terminators that parseInt skips at the front. */
  predicate IsJsSpace(c: char) {
    c == '\t' || c == '\n' || c == '\U{B}' || c == '\U{C}' || c == '\r' || c == ' '
    || c == '\U{A0}' || c == '\U{1680}' || ('\U{2000}' <= c <= '\U{200A}')
    || c == '\U{2028}' || c == '\U{2029}' || c == '\U{202F}' || c == '\U{205F}'
    || c == '\U{3000}' || c == '\U{FEFF}'
  }

  function TrimStart(s: string): (t: string)
    ensures |t| <= |s| && t == s[|s| - |t|..]
    ensures t == [] || !IsJsSpace(t[0])
  {
    if s != [] && IsJsSpace(s[0]) then TrimStart(s[1..]) else s
  }

  /** The value of a digit in bases up to 36, 36 for anything else. */
  function DigitVal(c: char): (v: nat)
    ensures v <= 36
  {
    if '0' <= c <= '9' then (c as int) - ('0' as int)
    else if 'a' <= c <= 'z' then (c as int) - ('a' as int) + 10
    else if 'A' <= c <= 'Z' then (c as int) - ('A' as int) + 10
    else 36
  }

  predicate IsDigitOf(c: char, radix: nat) {
    DigitVal(c) < radix
  }

  /** The length of the run of digits at the front. */
  function DigitRun(s: string, radix: nat): (k: nat)
    ensures k <= |s|
    ensures forall i :: 0 <= i < k ==> IsDigitOf(s[i], radix)
    ensures k < |s| ==> !IsDigitOf(s[k], radix)
  {
    if s == [] || !IsDigitOf(s[0], radix) then 0 else 1 + DigitRun(s[1..], radix)
  }

  /** The value of a digit string, most significant digit first. */
  function ValueOf(d: string, radix: nat): nat {
    if d == [] then 0 else ValueOf(d[..|d| - 1], radix) * radix + DigitVal(d[|d| - 1])
  }

  predicate HexPrefixed(s: string) {
    |s| >= 2 && s[0] == '0' && (s[1] == 'x' || s[1] == 'X')
  }

  /** A run of digits in the given base, NaN when it is empty. */
  function ReadRun(d: string, radix: nat): ParsedInt {
    var k := DigitRun(d, radix);
    if k == 0 then NaN else Num(ValueOf(d[..k], radix))
  }

  /** The part after the sign: a "0x" or "0X" prefix switches to base 16. */
  function ReadMagnitude(u: string): ParsedInt {
    if HexPrefixed(u) then ReadRun(u[2..], 16) else ReadRun(u, 10)
  }

  function Negate(p: ParsedInt): ParsedInt {
    match p
    case NaN => NaN
    case Num(n) => Num(-n)
  }

  /** parseInt with no radix: leading white space is skipped, one sign is
      taken, a "0x" or "0X" prefix switches to base 16, and the longest run of
      digits is read; no digit at all gives NaN. */
  function ParseInt(text: string): ParsedInt {
    var s := TrimStart(text);
    if s != [] && s[0] == '-' then Negate(ReadMagnitude(s[1..]))
    else if s != [] && s[0] == '+' then ReadMagnitude(s[1..])
    else ReadMagnitude(s)
  }

  /** The decimal text of a natural number. */
  function NatText(n: nat): (t: string)
    ensures |t| >= 1
    ensures forall i :: 0 <= i < |t| ==> '0' <= t[i] <= '9'
  {
    var last := [(('0' as int) + n % 10) as char];
    if n < 10 then last else NatText(n / 10) + last
  }

  /** The decimal text of an integer, as String(n) writes it. */
  function IntText(n: int): string {
    if n < 0 then "-" + NatText(-n) else NatText(n)
  }

  lemma {:induction false} NatTextValue(n: nat)
    ensures ValueOf(NatText(n), 10) == n
  {
    var t := NatText(n);
    if n >= 10 {
      NatTextValue(n / 10);
      assert t[..|t| - 1] == NatText(n / 10);
    }
  }

  lemma {:induction false} NatTextLeadingZero(n: nat)
    ensures NatText(n)[0] == '0' ==> n == 0
  {
    if n >= 10 {
      NatTextLeadingZero(n / 10);
      assert NatText(n)[0] == NatText(n / 10)[0];
    }
  }

  lemma AllDigitsRun(s: string, radix: nat)
    requires forall i :: 0 <= i < |s| ==> IsDigitOf(s[i], radix)
    ensures DigitRun(s, radix) == |s|
  {
  }

  /** The decimal text of n, with nothing in front, reads as n. */
  lemma NatTextMagnitude(n: nat)
    ensures ReadMagnitude(NatText(n)) == Num(n)
  {
    var t := NatText(n);
    NatTextLeadingZero(n);
    if n == 0 {
      assert t == "0";
    }
    assert !HexPrefixed(t);
    AllDigitsRun(t, 10);
    assert t[..|t|] == t;
    NatTextValue(n);
  }

  /** Text starting with a digit, a sign or a letter is not trimmed. */
  lemma NoLeadingSpace(s: string)
    requires s != [] && ('0' <= s[0] <= '9' || s[0] == '-' || 'a' <= s[0] <= 'z')
    ensures TrimStart(s) == s
  {
  }

  /** parseInt reads back what String writes, for every integer. */
  lemma ParseIntRoundTrip(n: int)
    ensures ParseInt(IntText(n)) == Num(n)
  {
    if n >= 0 {
      NoLeadingSpace(NatText(n));
      NatTextMagnitude(n);
    } else {
      var s := "-" + NatText(-n);
      NoLeadingSpace(s);
      assert s[1..] == NatText(-n);
      NatTextMagnitude(-n);
    }
  }

  /** Text without a digit where the number should start parses to NaN. */
  lemma NoDigitIsNaN()
    ensures ParseInt("abc") == NaN && ParseInt("") == NaN
  {
    NoLeadingSpace("abc");
    assert !HexPrefixed("abc");
    assert DigitRun("abc", 10) == 0;
  }

  // ---------------------------------------------------------------------------
  // The store

  datatype User = User(id: int, name: string, email: string, role: string)
  datatype Post = Post(id: int, title: string, content: string, authorId: int)

  /** A reply: the HTTP status and the JSON body. */
  datatype MockReply = MockReply(status: int, body: Json)

  const InitialUsers: seq<User> := [
    User(1, "John Doe", "john@example.com", "admin"),
    User(2, "Jane Smith", "jane@example.com", "user"),
    User(3, "Bob Johnson", "bob@example.com", "user")]

  const InitialPosts: seq<Post> := [
    Post(1, "First Post", "This is the first post", 1),
    Post(2, "Second Post", "This is the second post", 2),
    Post(3, "Third Post", "This is the third post", 1)]

  /** A string field of the request body that is present and non-empty. */
  predicate Given(field: Option<string>) {
    field.Some? && field.value != ""
  }

  function UserJson(u: User): Json {
    JObj(map["id" := JNum(u.id), "name" := JStr(u.name), "email" := JStr(u.email), "role" := JStr(u.role)])
  }

  function PostJson(p: Post): Json {
    JObj(map["id" := JNum(p.id), "title" := JStr(p.title), "content" := JStr(p.content), "authorId" := JNum(p.authorId)])
  }

  function Failure(status: int, error: string): MockReply {
    MockReply(status, JObj(map["success" := JBool(false), "error" := JStr(error)]))
  }

  const UserNotFound := Failure(404, "User not found")

  /** `users.findIndex(u => u.id === id)`: the first position holding the id,
      none when no user has it; NaN equals no id. */
  function FirstIndex(users: seq<User>, id: ParsedInt): (r: Option<nat>)
    ensures r.Some? ==> r.value < |users| && id == Num(users[r.value].id)
    ensures r.Some? ==> forall j :: 0 <= j < r.value ==> id != Num(users[j].id)
    ensures r.None? ==> forall j :: 0 <= j < |users| ==> id != Num(users[j].id)
  {
    if users == [] then None
    else if id == Num(users[0].id) then Some(0)
    else match FirstIndex(users[1..], id)
      case None => None
      case Some(i) => Some(i + 1)
  }

  /** An id no user holds is found at the end after appending a user with it. */
  lemma {:induction false} FirstIndexAppend(users: seq<User>, u: User)
    requires FirstIndex(users, Num(u.id)).None?
    ensures FirstIndex(users + [u], Num(u.id)) == Some(|users|)
  {
    if users != [] {
      assert (users + [u])[1..] == users[1..] + [u];
      assert FirstIndex(users[1..], Num(u.id)).None?;
      FirstIndexAppend(users[1..], u);
    }
  }

  /** The seeded users 1, 2 and 3 are found at positions 0, 1 and 2. */
  lemma InitialUsersFound()
    ensures FirstIndex(InitialUsers, Num(1)) == Some(0)
    ensures FirstIndex(InitialUsers, Num(2)) == Some(1)
    ensures FirstIndex(InitialUsers, Num(3)) == Some(2)
    ensures FirstIndex(InitialUsers, Num(4)).None?
  {
  }

  /** `{...user, ...(name && {name}), ...(email && {email}), ...(role && {role})}`. */
  function Updated(u: User, name: Option<string>, email: Option<string>, role: Option<string>): (v: User)
    ensures v.id == u.id
    ensures v.name == (if Given(name) then name.value else u.name)
    ensures v.email == (if Given(email) then email.value else u.email)
    ensures v.role == (if Given(role) then role.value else u.role)
  {
    User(u.id,
         if Given(name) then name.value else u.name,
         if Given(email) then email.value else u.email,
         if Given(role) then role.value else u.role)
  }

  /** An update with no field given non-empty changes nothing. */
  lemma EmptyUpdateKeepsUser(u: User, name: Option<string>, email: Option<string>, role: Option<string>)
    requires !Given(name) && !Given(email) && !Given(role)
    ensures Updated(u, name, email, role) == u
  {
  }

  class MockStore {
    var users: seq<User>
    var posts: seq<Post>

    constructor ()
      ensures users == InitialUsers && posts == InitialPosts
    {
      users := InitialUsers;
      posts := InitialPosts;
    }

    /** GET /users/:id: the first user with the parsed id, or 404. */
    method GetUser(idText: string) returns (reply: MockReply)
      ensures FirstIndex(users, ParseInt(idText)).None? ==> reply == UserNotFound
      ensures FirstIndex(users, ParseInt(idText)).Some? ==>
                var i := FirstIndex(users, ParseInt(idText)).value;
                reply == MockReply(200, JObj(map["success" := JBool(true), "data" := UserJson(users[i])]))
    {
      var found := FirstIndex(users, ParseInt(idText));
      if found.None? {
        return UserNotFound;
      }
      reply := MockReply(200, JObj(map["success" := JBool(true), "data" := UserJson(users[found.value])]));
    }

    /** POST /users: name and email are required; the new user gets the id
        `length + 1`, the role "user" unless one is given, and goes at the end. */
    method CreateUser(name: Option<string>, email: Option<string>, role: Option<string>) returns (reply: MockReply)
      modifies this`users
      ensures !Given(name) || !Given(email) ==>
                reply == Failure(400, "Name and email are required") && users == old(users)
      ensures Given(name) && Given(email) ==>
                var u := User(|old(users)| + 1, name.value, email.value, if Given(role) then role.value else "user");
                && users == old(users) + [u]
                && reply == MockReply(201, JObj(map["success" := JBool(true), "data" := UserJson(u),
                                                    "message" := JStr("User created successfully")]))
    {
      if !Given(name) || !Given(email) {
        return Failure(400, "Name and email are required");
      }
      var u := User(|users| + 1, name.value, email.value, if Given(role) then role.value else "user");
      users := users + [u];
      reply := MockReply(201, JObj(map["success" := JBool(true), "data" := UserJson(u),
                                       "message" := JStr("User created successfully")]));
    }

    /** PUT /users/:id: 404 when no user has the id, otherwise the given
        fields replace those of the first such user. */
    method UpdateUser(idText: string, name: Option<string>, email: Option<string>, role: Option<string>)
      returns (reply: MockReply)
      modifies this`users
      ensures FirstIndex(old(users), ParseInt(idText)).None? ==> reply == UserNotFound && users == old(users)
      ensures FirstIndex(old(users), ParseInt(idText)).Some? ==>
                var i := FirstIndex(old(users), ParseInt(idText)).value;
                && users == old(users)[i := Updated(old(users)[i], name, email, role)]
                && reply == MockReply(200, JObj(map["success" := JBool(true), "data" := UserJson(users[i]),
                                                    "message" := JStr("User updated successfully")]))
      ensures |users| == |old(users)|
    {
      var found := FirstIndex(users, ParseInt(idText));
      if found.None? {
        return UserNotFound;
      }
      var i := found.value;
      users := users[i := Updated(users[i], name, email, role)];
      reply := MockReply(200, JObj(map["success" := JBool(true), "data" := UserJson(users[i]),
                                       "message" := JStr("User updated successfully")]));
    }

    /** DELETE /users/:id: 404 when no user has the id, otherwise the first
        such user is spliced out and the others keep their order. */
    method DeleteUser(idText: string) returns (reply: MockReply)
      modifies this`users
      ensures FirstIndex(old(users), ParseInt(idText)).None? ==> reply == UserNotFound && users == old(users)
      ensures FirstIndex(old(users), ParseInt(idText)).Some? ==>
                var i := FirstIndex(old(users), ParseInt(idText)).value;
                && users == old(users)[..i] + old(users)[i + 1..]
                && |users| == |old(users)| - 1
                && reply == MockReply(200, JObj(map["success" := JBool(true),
                                                    "message" := JStr("User deleted successfully")]))
    {
      var found := FirstIndex(users, ParseInt(idText));
      if found.None? {
        return UserNotFound;
      }
      var i := found.value;
      users := users[..i] + users[i + 1..];
      reply := MockReply(200, JObj(map["success" := JBool(true), "message" := JStr("User deleted successfully")]));
    }

    /** POST /posts: title and content are required; the new post gets the id
        `length + 1` and author 1 unless a non-zero author is given. */
    method CreatePost(title: Option<string>, content: Option<string>, authorId: Option<int>) returns (reply: MockReply)
      modifies this`posts
      ensures !Given(title) || !Given(content) ==>
                reply == Failure(400, "Title and content are required") && posts == old(posts)
      ensures Given(title) && Given(content) ==>
                var p := Post(|old(posts)| + 1, title.value, content.value,
                              if authorId.Some? && authorId.value != 0 then authorId.value else 1);
                && posts == old(posts) + [p]
                && reply == MockReply(201, JObj(map["success" := JBool(true), "data" := PostJson(p),
                                                    "message" := JStr("Post created successfully")]))
    {
      if !Given(title) || !Given(content) {
        return Failure(400, "Title and content are required");
      }
      var author := if authorId.Some? && authorId.value != 0 then authorId.value else 1;
      var p := Post(|posts| + 1, title.value, content.value, author);
      posts := posts + [p];
      reply := MockReply(201, JObj(map["success" := JBool(true), "data" := PostJson(p),
                                       "message" := JStr("Post created successfully")]));
    }
  }

  /** A user created under an id nobody holds is what GET then finds. */
  lemma CreatedUserIsFound(users: seq<User>, name: string, email: string, role: string)
    requires FirstIndex(users, Num(|users| + 1)).None?
    ensures var u := User(|users| + 1, name, email, role);
            FirstIndex(users + [u], ParseInt(IntText(|users| + 1))) == Some(|users|)
  {
    ParseIntRoundTrip(|users| + 1);
    FirstIndexAppend(users, User(|users| + 1, name, email, role));
  }

  // ---------------------------------------------------------------------------
  // Status codes

  const StatusMessages: map<int, string> := map[
    200 := "OK", 201 := "Created", 400 := "Bad Request", 401 := "Unauthorized",
    403 := "Forbidden", 404 := "Not Found", 500 := "Internal Server Error",
    502 := "Bad Gateway", 503 := "Service Unavailable"]

  /** `getStatusMessage`: the table's text, "Unknown Status" for any other code. */
  function StatusMessage(code: int): (m: string)
    ensures code in StatusMessages ==> m == StatusMessages[code] && m != "Unknown Status"
    ensures code !in StatusMessages ==> m == "Unknown Status"
  {
    if code in StatusMessages then StatusMessages[code] else "Unknown Status"
  }

  const InvalidStatus := MockReply(400, JObj(map["error" := JStr("Invalid status code")]))

  /** What the status route hands to the response: the status it sets, which
      the guard as written lets be NaN, and the body. */
  datatype StatusAttempt = StatusAttempt(status: ParsedInt, body: Json)

  /** GET /status/:code as written: the guard rejects numbers below 100 and
      above 599, but both comparisons are false for NaN, so NaN reaches
      `res.status` (and serialises to null in the body). */
  function StatusRouteAsWritten(codeText: string): (r: StatusAttempt)
    ensures ParseInt(codeText).NaN? ==> r.status.NaN?
    ensures ParseInt(codeText).Num? && 100 <= ParseInt(codeText).n <= 599 ==> r.status == ParseInt(codeText)
    ensures ParseInt(codeText).Num? && !(100 <= ParseInt(codeText).n <= 599) ==> r.status == Num(400)
  {
    match ParseInt(codeText)
    case NaN => StatusAttempt(NaN, JObj(map["status" := JNull, "message" := JStr("Unknown Status")]))
    case Num(code) =>
      if code < 100 || code > 599 then StatusAttempt(Num(InvalidStatus.status), InvalidStatus.body)
      else StatusAttempt(Num(code), JObj(map["status" := JNum(code), "message" := JStr(StatusMessage(code))]))
  }

  /** GET /status/:code with NaN refused like any other invalid code: the reply
      carries the requested code exactly when it is a number in 100..599. */
  function StatusRoute(codeText: string): (r: MockReply)
    ensures 100 <= r.status <= 599
    ensures r.status != 400 ==> ParseInt(codeText) == Num(r.status)
    ensures (ParseInt(codeText).Num? && 100 <= ParseInt(codeText).n <= 599) ==>
              r == MockReply(ParseInt(codeText).n,
                             JObj(map["status" := JNum(ParseInt(codeText).n),
                                      "message" := JStr(StatusMessage(ParseInt(codeText).n))]))
    ensures !(ParseInt(codeText).Num? && 100 <= ParseInt(codeText).n <= 599) ==> r == InvalidStatus
  {
    match ParseInt(codeText)
    case NaN => InvalidStatus
    case Num(code) =>
      if code < 100 || code > 599 then InvalidStatus
      else MockReply(code, JObj(map["status" := JNum(code), "message" := JStr(StatusMessage(code))]))
  }

  /** "/status/abc": as written the status set is NaN; corrected it is 400. */
  lemma NaNStatusSlipsThrough()
    ensures StatusRouteAsWritten("abc").status == NaN
    ensures StatusRoute("abc") == InvalidStatus
  {
    NoDigitIsNaN();
  }

  /** Every written status code from 100 to 599 is echoed back. */
  lemma StatusCodesEchoed(code: int)
    requires 100 <= code <= 599
    ensures StatusRoute(IntText(code)) ==
              MockReply(code, JObj(map["status" := JNum(code), "message" := JStr(StatusMessage(code))]))
  {
    ParseIntRoundTrip(code);
  }
}
