/** The user table behind the login and signup forms: rows of (email,
    password) compared by exact string equality (main.py:52-68, 94, 121-129).
    The table lives in memory here; reading and writing `users.csv` is not part
    of this model. */
module Credentials {
  import opened Wrappers

  datatype Credential = Credential(email: string, password: string)

  /** The row written when `users.csv` does not exist yet (main.py:54-57). */
  const Seed: Credential := Credential("admin@gmail.com", "admin123")

  /** `((users.email == email) & (users.password == password)).any()`. */
  function AnyMatch(rows: seq<Credential>, email: string, password: string): (ok: bool)
    ensures ok <==> exists i :: 0 <= i < |rows| && rows[i].email == email && rows[i].password == password
    decreases |rows|
  {
    |rows| > 0 &&
    ((rows[0].email == email && rows[0].password == password) || AnyMatch(rows[1..], email, password))
  }

  /** `email in users["email"].values`. */
  function EmailTaken(rows: seq<Credential>, email: string): (taken: bool)
    ensures taken <==> exists i :: 0 <= i < |rows| && rows[i].email == email
    decreases |rows|
  {
    |rows| > 0 && (rows[0].email == email || EmailTaken(rows[1..], email))
  }

  /** No two rows share an email. */
  ghost predicate DistinctEmails(rows: seq<Credential>)
  {
    forall i, j :: 0 <= i < j < |rows| ==> rows[i].email != rows[j].email
  }

  /** Reference lookup: the password of the first row with this email. */
  function PasswordOf(rows: seq<Credential>, email: string): (p: Option<string>)
    ensures p.Some? <==> EmailTaken(rows, email)
    ensures p.Some? ==> exists i :: 0 <= i < |rows| && rows[i] == Credential(email, p.value)
    decreases |rows|
  {
    if |rows| == 0 then None
    else if rows[0].email == email then Some(rows[0].password)
    else PasswordOf(rows[1..], email)
  }

  /** With distinct emails, the pairwise match is a key lookup: login
      succeeds iff the stored password for the email is the one given. */
  lemma {:induction false} MatchIsLookup(rows: seq<Credential>, email: string, password: string)
    requires DistinctEmails(rows)
    ensures AnyMatch(rows, email, password) <==> PasswordOf(rows, email) == Some(password)
    decreases |rows|
  {
    if |rows| > 0 {
      var rest := rows[1..];
      assert DistinctEmails(rest) by {
        forall i, j | 0 <= i < j < |rest| ensures rest[i].email != rest[j].email {
          assert rest[i] == rows[i + 1] && rest[j] == rows[j + 1];
        }
      }
      MatchIsLookup(rest, email, password);
      if rows[0].email == email && !(rows[0].password == password) {
        forall i | 0 <= i < |rest| ensures rest[i].email != email {
          assert rest[i] == rows[i + 1];
        }
      }
    }
  }

  /** The verdict of the signup form: an existing email is reported first,
      a password mismatch second. */
  datatype SignupOutcome = UserExists | PasswordMismatch | Created

  function SignupVerdict(rows: seq<Credential>, email: string, password: string, confirm: string): (r: SignupOutcome)
    ensures r == UserExists <==> exists i :: 0 <= i < |rows| && rows[i].email == email
    ensures r == PasswordMismatch ==> password != confirm
    ensures r == Created <==> !EmailTaken(rows, email) && password == confirm
  {
    if EmailTaken(rows, email) then UserExists
    else if password != confirm then PasswordMismatch
    else Created
  }

  /** The table after a signup attempt: one row appended on success
      (`save_user`, main.py:62-68), unchanged otherwise. */
  function AfterSignup(rows: seq<Credential>, email: string, password: string, confirm: string): (r: seq<Credential>)
    ensures r == rows || r == rows + [Credential(email, password)]
    ensures r != rows <==> !EmailTaken(rows, email) && password == confirm
  {
    if SignupVerdict(rows, email, password, confirm) == Created then rows + [Credential(email, password)]
    else rows
  }

  /** An existing email is rejected whatever the passwords, and the table is
      left as it was. */
  lemma DuplicateEmailRejectedFirst(rows: seq<Credential>, email: string, password: string, confirm: string)
    requires exists i :: 0 <= i < |rows| && rows[i].email == email
    ensures SignupVerdict(rows, email, password, confirm) == UserExists
    ensures AfterSignup(rows, email, password, confirm) == rows
  {
  }

  /** A successful signup adds exactly the new pair at the end, after which
      that pair logs in and every pair that logged in before still does. */
  lemma SignupThenLogin(rows: seq<Credential>, email: string, password: string, confirm: string)
    requires SignupVerdict(rows, email, password, confirm) == Created
    ensures password == confirm && !EmailTaken(rows, email)
    ensures AfterSignup(rows, email, password, confirm) == rows + [Credential(email, password)]
    ensures AnyMatch(AfterSignup(rows, email, password, confirm), email, password)
    ensures forall e, p :: AnyMatch(rows, e, p) ==> AnyMatch(AfterSignup(rows, email, password, confirm), e, p)
  {
    var after := AfterSignup(rows, email, password, confirm);
    assert after[|rows|] == Credential(email, password);
    forall e, p | AnyMatch(rows, e, p) ensures AnyMatch(after, e, p) {
      var i :| 0 <= i < |rows| && rows[i].email == e && rows[i].password == p;
      assert after[i] == rows[i];
    }
  }

  /** Signup never introduces a second row for an email. */
  lemma SignupKeepsEmailsDistinct(rows: seq<Credential>, email: string, password: string, confirm: string)
    requires DistinctEmails(rows)
    ensures DistinctEmails(AfterSignup(rows, email, password, confirm))
  {
    var after := AfterSignup(rows, email, password, confirm);
    if after != rows {
      assert !EmailTaken(rows, email);
      forall i, j | 0 <= i < j < |after| ensures after[i].email != after[j].email {
        if j == |rows| {
          assert after[i] == rows[i];
        } else {
          assert after[i] == rows[i] && after[j] == rows[j];
        }
      }
    }
  }

  /** The seeded table admits the administrator and nobody else. */
  lemma SeedAdmitsOnlyAdmin(email: string, password: string)
    ensures AnyMatch([Seed], email, password) <==> email == "admin@gmail.com" && password == "admin123"
    ensures DistinctEmails([Seed])
  {
  }

  /** The user table as stored state. */
  class UserStore {
    var rows: seq<Credential>

    /** `users.csv` is missing: it is created holding the seed row. */
    constructor Seeded()
      ensures rows == [Seed]
    {
      rows := [Seed];
    }

    /** `users.csv` exists: its rows are loaded as they are. */
    constructor Loaded(existing: seq<Credential>)
      ensures rows == existing
    {
      rows := existing;
    }

    /** `save_user`: append one row, keep every earlier row. */
    method Save(email: string, password: string)
      modifies this
      ensures rows == old(rows) + [Credential(email, password)]
    {
      rows := rows + [Credential(email, password)];
    }
  }
}
