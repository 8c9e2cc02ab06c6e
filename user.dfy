/** The server's user model: the name, password and e-mail validators, user
    creation with its fixed order of checks, the profile update that applies
    what is valid and skips the rest, and the dictionary a user is sent as.
    The `users` table is a sequence of rows in the order the database
    returns them; bcrypt hashing and the clock are parameters. */
module UserModel {
  import opened Common

  // ---- e-mail: ^[a-zA-Z0-9._%+-]+@[a-zA-Z0-9.-]+\.[a-zA-Z]{2,}$ ----

  predicate IsLetter(c: char) {
    ('a' <= c <= 'z') || ('A' <= c <= 'Z')
  }

  predicate IsDigit(c: char) {
    '0' <= c <= '9'
  }

  /** The class of the local part: letters, digits and `._%+-`. */
  predicate IsLocalChar(c: char) {
    IsLetter(c) || IsDigit(c) || c == '.' || c == '_' || c == '%' || c == '+' || c == '-'
  }

  /** The class of the domain part: letters, digits, `.` and `-`. */
  predicate IsDomainChar(c: char) {
    IsLetter(c) || IsDigit(c) || c == '.' || c == '-'
  }

  predicate AllLocal(s: string) {
    forall i :: 0 <= i < |s| ==> IsLocalChar(s[i])
  }

  predicate AllDomain(s: string) {
    forall i :: 0 <= i < |s| ==> IsDomainChar(s[i])
  }

  predicate AllLetters(s: string) {
    forall i :: 0 <= i < |s| ==> IsLetter(s[i])
  }

  /** The language of the pattern, as the split it describes: a non-empty
      local part, `@`, a non-empty domain, `.`, and at least two letters. */
  ghost predicate MatchesPattern(s: string) {
    exists a, k :: 0 < a && a + 1 < k && k + 3 <= |s| && s[a] == '@' && s[k] == '.'
      && AllLocal(s[..a]) && AllDomain(s[a + 1..k]) && AllLetters(s[k + 1..])
  }

  /** The first position of `c` in `s`, or `|s|` when there is none. */
  function IndexOf(s: string, c: char): (i: nat)
    ensures i <= |s| && (i < |s| ==> s[i] == c)
    ensures forall j :: 0 <= j < i ==> s[j] != c
  {
    if s == [] then 0 else if s[0] == c then 0 else 1 + IndexOf(s[1..], c)
  }

  /** The last position of `c` in `s`, or -1 when there is none. */
  function LastIndexOf(s: string, c: char): (i: int)
    ensures -1 <= i < |s| && (i >= 0 ==> s[i] == c)
    ensures forall j :: i < j < |s| ==> s[j] != c
  {
    if s == [] then -1
    else if s[|s| - 1] == c then |s| - 1
    else LastIndexOf(s[..|s| - 1], c)
  }

  /** The pattern matched against the whole string: the only `@` the local
      part allows is the first one, and the `.` before the letters of the top
      level domain is the last one. */
  predicate WholeMatch(s: string) {
    var a := IndexOf(s, '@');
    var k := LastIndexOf(s, '.');
    0 < a && a + 1 < k && k + 3 <= |s|
      && AllLocal(s[..a]) && AllDomain(s[a + 1..k]) && AllLetters(s[k + 1..])
  }

  /** `validate_email`: `re.match` anchored by `^` and `$`. Python's `$`
      also matches just before a final newline, so one trailing "\n" is
      accepted. */
  predicate ValidateEmail(email: string)
    ensures ValidateEmail(email) ==> |email| >= 6 && '@' in email
  {
    WholeMatch(email)
    || (|email| > 0 && email[|email| - 1] == '\n' && WholeMatch(email[..|email| - 1]))
  }

  /** The recogniser decides exactly the pattern's language. */
  lemma {:induction false} WholeMatchIsPattern(s: string)
    ensures WholeMatch(s) <==> MatchesPattern(s)
  {
    if MatchesPattern(s) {
      var a, k :| 0 < a && a + 1 < k && k + 3 <= |s| && s[a] == '@' && s[k] == '.'
        && AllLocal(s[..a]) && AllDomain(s[a + 1..k]) && AllLetters(s[k + 1..]);
      var a' := IndexOf(s, '@');
      var k' := LastIndexOf(s, '.');
      forall j | 0 <= j < a ensures s[j] != '@' {
        assert s[..a][j] == s[j];
      }
      assert a' == a;
      forall j | k < j < |s| ensures s[j] != '.' {
        assert s[k + 1..][j - k - 1] == s[j];
      }
      assert k' == k;
    }
  }

  /** The validator's language: the pattern, with one optional final newline. */
  lemma EmailLanguage(s: string)
    ensures ValidateEmail(s) <==>
      MatchesPattern(s) || (exists t :: MatchesPattern(t) && s == t + "\n")
  {
    WholeMatchIsPattern(s);
    if |s| > 0 && s[|s| - 1] == '\n' {
      var t := s[..|s| - 1];
      WholeMatchIsPattern(t);
      assert s == t + "\n";
      forall u | s == u + "\n" ensures u == t {
        assert u == (u + "\n")[..|u|];
      }
    } else {
      forall u ensures s != u + "\n" {
        assert (u + "\n")[|u|] == '\n';
      }
    }
  }

  /** Addresses the validator accepts and rejects. */
  lemma EmailExamples()
    ensures ValidateEmail("a@b.co")
    ensures ValidateEmail("a@b.co\n")
    ensures !ValidateEmail("a@b.c")
    ensures !ValidateEmail("@b.co")
    ensures !ValidateEmail(" a@b.co")
  {
    assert IndexOf("a@b.co", '@') == 1;
    assert LastIndexOf("a@b.co", '.') == 3;
    assert "a@b.co\n"[..6] == "a@b.co";
    assert IndexOf(" a@b.co", '@') == 2;
    assert !IsLocalChar(" a@b.co"[..2][0]);
  }

  // ---- password and name ----

  const PasswordTooShort := "Password must be at least 6 characters long"
  const PasswordTooLong := "Password must be less than 128 characters"
  const NameTooShort := "Name must be at least 2 characters long"
  const NameTooLong := "Name must be less than 100 characters"

  /** `validate_password`: between 6 and 128 characters; the short check
      comes first. */
  function ValidatePassword(password: string): (r: (bool, string))
    ensures r.0 <==> 6 <= |password| <= 128
    ensures |password| < 6 ==> r.1 == PasswordTooShort
    ensures |password| > 128 ==> r.1 == PasswordTooLong
  {
    if |password| < 6 then (false, PasswordTooShort)
    else if |password| > 128 then (false, PasswordTooLong)
    else (true, "Password is valid")
  }

  /** `validate_name`: at least 2 characters once stripped, and at most
      100 characters counting the surrounding whitespace. */
  function ValidateName(name: string): (r: (bool, string))
    ensures r.0 <==> |Trim(Python, name)| >= 2 && |name| <= 100
    ensures |Trim(Python, name)| < 2 ==> r.1 == NameTooShort
    ensures |Trim(Python, name)| >= 2 && |name| > 100 ==> r.1 == NameTooLong
  {
    if name == "" || |Trim(Python, name)| < 2 then (false, NameTooShort)
    else if |name| > 100 then (false, NameTooLong)
    else (true, "Name is valid")
  }

  /** A long name padded with spaces fails although its stripped form fits. */
  lemma PaddedNameRejected()
    ensures var n := "ab" + seq(99, _ => ' ');
      |Trim(Python, n)| == 2 && !ValidateName(n).0
  {
    var n := "ab" + seq(99, _ => ' ');
    assert TrimStart(Python, n) == n;
    assert AllSpace(Python, n[2..]);
    TrimEndOf(n, 2);
  }

  /** Trimming the end of `s` stops at the last non-space character. */
  lemma {:induction false} TrimEndOf(s: string, n: nat)
    requires 0 < n <= |s| && !IsSpace(Python, s[n - 1]) && AllSpace(Python, s[n..])
    ensures TrimEnd(Python, s) == s[..n]
  {
    if n < |s| {
      assert IsSpace(Python, s[n..][|s| - 1 - n]);
      assert s[..|s| - 1][n..] == s[n..|s| - 1];
      TrimEndOf(s[..|s| - 1], n);
      assert s[..|s| - 1][..n] == s[..n];
    }
  }

  // ---- the users table ----

  /** A row of `users`; the time stamps are kept as the ISO text `to_dict`
      renders them as. */
  datatype UserRow = UserRow(
    id: int,
    name: string,
    email: string,
    passwordHash: string,
    isActive: bool,
    createdAt: Option<string>,
    updatedAt: Option<string>)

  /** `email.lower().strip()`: how addresses are stored and looked up. */
  function NormalizeEmail(email: string): (r: string)
    ensures |r| <= |email|
    ensures r != [] ==> !IsSpace(Python, r[0]) && !IsSpace(Python, r[|r| - 1])
  {
    TrimShape(Python, Lower(email));
    Trim(Python, Lower(email))
  }

  /** `find_by_email`: the first active row whose address equals the
      normalised argument. */
  function FindByEmail(rows: seq<UserRow>, email: string): (r: Option<UserRow>)
    ensures r.Some? ==> r.value in rows && r.value.isActive && r.value.email == NormalizeEmail(email)
    ensures r.None? ==> forall i :: 0 <= i < |rows| ==>
      !(rows[i].isActive && rows[i].email == NormalizeEmail(email))
  {
    FirstActiveWithEmail(rows, NormalizeEmail(email))
  }

  function FirstActiveWithEmail(rows: seq<UserRow>, email: string): (r: Option<UserRow>)
    ensures r.Some? ==> r.value in rows && r.value.isActive && r.value.email == email
    ensures r.None? ==> forall i :: 0 <= i < |rows| ==> !(rows[i].isActive && rows[i].email == email)
  {
    if rows == [] then None
    else if rows[0].isActive && rows[0].email == email then Some(rows[0])
    else FirstActiveWithEmail(rows[1..], email)
  }

  /** A lookup that finds nothing in a table finds the row appended to it
      when that row matches. */
  lemma {:induction false} FindAppended(rows: seq<UserRow>, row: UserRow, email: string)
    requires FirstActiveWithEmail(rows, email).None? && row.isActive && row.email == email
    ensures FirstActiveWithEmail(rows + [row], email) == Some(row)
  {
    if rows != [] {
      assert (rows + [row])[1..] == rows[1..] + [row];
      FindAppended(rows[1..], row, email);
    }
  }

  const DuplicateEmail := "User with this email already exists"
  const InvalidEmail := "Invalid email format"

  /** The checks of `create_user`, in order: name, e-mail format, password,
      then an existing active user with the same normalised address. None
      means every check passed. */
  function CreateUserCheck(rows: seq<UserRow>, name: string, email: string, password: string): (r: Option<string>)
    ensures !ValidateName(name).0 ==> r == Some(ValidateName(name).1)
    ensures ValidateName(name).0 && !ValidateEmail(email) ==> r == Some(InvalidEmail)
    ensures ValidateName(name).0 && ValidateEmail(email) && !ValidatePassword(password).0 ==>
      r == Some(ValidatePassword(password).1)
    ensures ValidateName(name).0 && ValidateEmail(email) && ValidatePassword(password).0 ==>
      (r == Some(DuplicateEmail) <==> FindByEmail(rows, email).Some?)
    ensures r.None? <==> (ValidateName(name).0 && ValidateEmail(email)
                          && ValidatePassword(password).0 && FindByEmail(rows, email).None?)
  {
    if !ValidateName(name).0 then Some(ValidateName(name).1)
    else if !ValidateEmail(email) then Some(InvalidEmail)
    else if !ValidatePassword(password).0 then Some(ValidatePassword(password).1)
    else if FindByEmail(rows, email).Some? then Some(DuplicateEmail)
    else None
  }

  /** Upper and lower case spellings of an address normalise alike. */
  lemma CaseInsensitiveNormal(email: string, other: string)
    requires |email| == |other|
    requires forall i :: 0 <= i < |email| ==> LowerChar(email[i]) == LowerChar(other[i])
    ensures NormalizeEmail(email) == NormalizeEmail(other)
  {
    assert Lower(email) == Lower(other);
  }

  /** The users table. */
  class UserTable {
    var rows: seq<UserRow>

    constructor (rows: seq<UserRow>)
      ensures this.rows == rows
    {
      this.rows := rows;
    }

    /** `create_user`: the first failing check's message and no change, or
        a new active row with the stripped name and the normalised address,
        which the lookup by that address then returns. `passwordHash`,
        `newId` and `now` stand for bcrypt, the auto-increment key and the
        insertion time. */
    method CreateUser(name: string, email: string, password: string,
                      passwordHash: string, newId: int, now: string)
      returns (user: Option<UserRow>, message: string)
      modifies this
      ensures CreateUserCheck(old(rows), name, email, password).Some? ==>
        user.None? && message == CreateUserCheck(old(rows), name, email, password).value
        && rows == old(rows)
      ensures CreateUserCheck(old(rows), name, email, password).None? ==>
        var row := UserRow(newId, Trim(Python, name), NormalizeEmail(email), passwordHash, true, Some(now), Some(now));
        rows == old(rows) + [row] && user == Some(row) && message == "User created successfully"
        && FindByEmail(rows, email) == Some(row)
    {
      var failure := CreateUserCheck(rows, name, email, password);
      if failure.Some? {
        return None, failure.value;
      }
      var row := UserRow(newId, Trim(Python, name), NormalizeEmail(email), passwordHash, true, Some(now), Some(now));
      FindAppended(rows, row, NormalizeEmail(email));
      rows := rows + [row];
      user := FindByEmail(rows, email);
      message := "User created successfully";
    }
  }

  /** The table after `UPDATE users SET <columns> WHERE id = <id>`. */
  function UpdatedRows(rows: seq<UserRow>, id: int, name: Option<string>, email: Option<string>): (r: seq<UserRow>)
    ensures |r| == |rows|
    ensures forall i :: 0 <= i < |rows| && rows[i].id != id ==> r[i] == rows[i]
    ensures forall i :: 0 <= i < |rows| && rows[i].id == id ==>
      r[i] == rows[i].(name := if name.Some? then name.value else rows[i].name,
                       email := if email.Some? then email.value else rows[i].email)
  {
    seq(|rows|, i requires 0 <= i < |rows| =>
      if rows[i].id == id then
        rows[i].(name := if name.Some? then name.value else rows[i].name,
                 email := if email.Some? then email.value else rows[i].email)
      else rows[i])
  }

  /** `if name and validate_name(name)[0]`. */
  predicate NameApplies(newName: string) {
    newName != "" && ValidateName(newName).0
  }

  /** `if email and validate_email(email)`. */
  predicate EmailApplies(newEmail: string) {
    newEmail != "" && ValidateEmail(newEmail)
  }

  /** Another active user than `id` already has the address. */
  predicate TakenByOther(rows: seq<UserRow>, newEmail: string, id: int) {
    var found := FindByEmail(rows, newEmail);
    found.Some? && found.value.id != id
  }

  const EmailTaken := "Email is already taken"
  const NoValidUpdates := "No valid updates provided"

  /** A user object loaded from the table. Only `name` and `email` are
      ever reassigned; the other attributes are fixed once loaded. */
  class User {
    const id: int
    var name: string
    var email: string
    const passwordHash: string
    const isActive: bool
    const createdAt: Option<string>
    const updatedAt: Option<string>

    constructor FromRow(row: UserRow)
      ensures id == row.id && name == row.name && email == row.email
      ensures passwordHash == row.passwordHash && isActive == row.isActive
      ensures createdAt == row.createdAt && updatedAt == row.updatedAt
    {
      id, name, email := row.id, row.name, row.email;
      passwordHash, isActive := row.passwordHash, row.isActive;
      createdAt, updatedAt := row.createdAt, row.updatedAt;
    }

    /** `update_profile`: a non-empty valid name is applied to the object
        at once; a non-empty valid address is applied unless another active
        user has it, in which case the call fails with the name already
        changed on the object but nothing written. What was applied is then
        written to this user's row. An empty argument stands for None. */
    method UpdateProfile(newName: string, newEmail: string, db: UserTable)
      returns (ok: bool, message: string)
      modifies this, db
      ensures name == if NameApplies(newName) then Trim(Python, newName) else old(name)
      ensures EmailApplies(newEmail) && TakenByOther(old(db.rows), newEmail, id) ==>
        !ok && message == EmailTaken && db.rows == old(db.rows) && email == old(email)
      ensures EmailApplies(newEmail) && !TakenByOther(old(db.rows), newEmail, id) ==>
        email == NormalizeEmail(newEmail)
      ensures !EmailApplies(newEmail) ==> email == old(email)
      ensures (NameApplies(newName) || EmailApplies(newEmail))
              && !(EmailApplies(newEmail) && TakenByOther(old(db.rows), newEmail, id)) ==>
        ok && message == "Profile updated successfully"
        && db.rows == UpdatedRows(old(db.rows), id,
             if NameApplies(newName) then Some(Trim(Python, newName)) else None,
             if EmailApplies(newEmail) then Some(NormalizeEmail(newEmail)) else None)
      ensures !NameApplies(newName) && !EmailApplies(newEmail) ==>
        !ok && message == NoValidUpdates && db.rows == old(db.rows)
    {
      var setName: Option<string> := None;
      var setEmail: Option<string> := None;
      if NameApplies(newName) {
        setName := Some(Trim(Python, newName));
        name := Trim(Python, newName);
      }
      if EmailApplies(newEmail) {
        if TakenByOther(db.rows, newEmail, id) {
          return false, EmailTaken;
        }
        setEmail := Some(NormalizeEmail(newEmail));
        email := NormalizeEmail(newEmail);
      }
      if setName.Some? || setEmail.Some? {
        db.rows := UpdatedRows(db.rows, id, setName, setEmail);
        return true, "Profile updated successfully";
      }
      return false, NoValidUpdates;
    }

    /** `to_dict`: the public fields, without the password hash. */
    function ToDict(): (d: map<string, Json>)
      reads this
      ensures d.Keys == {"id", "name", "email", "is_active", "created_at", "updated_at"}
      ensures "password_hash" !in d
      ensures d["id"] == JNum(id) && d["name"] == JStr(name) && d["email"] == JStr(email)
      ensures d["is_active"] == JBool(isActive)
      ensures d["created_at"] == (if createdAt.Some? then JStr(createdAt.value) else JNull)
      ensures d["updated_at"] == (if updatedAt.Some? then JStr(updatedAt.value) else JNull)
    {
      map["id" := JNum(id), "name" := JStr(name), "email" := JStr(email),
          "is_active" := JBool(isActive),
          "created_at" := if createdAt.Some? then JStr(createdAt.value) else JNull,
          "updated_at" := if updatedAt.Some? then JStr(updatedAt.value) else JNull]
    }
  }
}
