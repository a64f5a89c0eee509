/** The sign-up provisioning rule of the auth configuration: a before-hook that
    refuses e-mail addresses outside an allow-list of domains, and the derivation
    of the new profile's role and status from one hard-coded super-admin
    address. The profile insert performed by the after-hook is
    `Workflow.Store.AfterSignUp`. */
module Auth {
  import opened Types

  const AllowedDomains: seq<string> := ["gmail.com", "org.com"]
  const SuperAdminEmail: string := "owinovictor91@gmail.com"
  /** Both hooks match only this request path. */
  const SignUpPath: string := "/sign-up"

  /** JavaScript's `String.prototype.split` with a one-character separator:
      the maximal separator-free pieces, an empty piece at each end or between
      adjacent separators. */
  function Split(s: string, sep: char): (parts: seq<string>)
    ensures |parts| >= 1
    ensures forall i :: 0 <= i < |parts| ==> sep !in parts[i]
  {
    if s == [] then [[]]
    else
      var rest := Split(s[1..], sep);
      if s[0] == sep then [[]] + rest
      else [[s[0]] + rest[0]] + rest[1..]
  }

  /** The inverse of `Split`: the pieces glued back with the separator. */
  function Join(parts: seq<string>, sep: char): string
    requires |parts| >= 1
  {
    if |parts| == 1 then parts[0] else parts[0] + [sep] + Join(parts[1..], sep)
  }

  lemma {:induction false} JoinSplit(s: string, sep: char)
    ensures Join(Split(s, sep), sep) == s
  {
    if s != [] {
      JoinSplit(s[1..], sep);
      var rest := Split(s[1..], sep);
      if s[0] != sep {
        assert Split(s, sep)[1..] == rest[1..];
        if |rest| == 1 {
          assert Join(Split(s, sep), sep) == [s[0]] + rest[0];
        }
        else {
          assert rest == [rest[0]] + rest[1..];
          assert Join(rest, sep) == rest[0] + [sep] + Join(rest[1..], sep);
          assert Join(Split(s, sep), sep) == [s[0]] + rest[0] + [sep] + Join(rest[1..], sep);
        }
      }
      else {
        assert Split(s, sep)[1..] == rest;
      }
    }
  }

  lemma {:induction false} SplitJoin(parts: seq<string>, sep: char)
    requires |parts| >= 1
    requires forall i :: 0 <= i < |parts| ==> sep !in parts[i]
    ensures Split(Join(parts, sep), sep) == parts
  {
    if |parts| == 1 {
      SplitPiece(parts[0], sep);
    }
    else {
      SplitJoin(parts[1..], sep);
      SplitPrefix(parts[0], Join(parts[1..], sep), sep);
      assert [parts[0]] + parts[1..] == parts;
    }
  }

  /** A separator-free string splits into itself alone. */
  lemma {:induction false} SplitPiece(w: string, sep: char)
    requires sep !in w
    ensures Split(w, sep) == [w]
  {
    if w != [] {
      SplitPiece(w[1..], sep);
      assert [w[0]] + w[1..] == w;
    }
  }

  /** Splitting `w + sep + t`, with `w` separator-free, yields `w` then the pieces of `t`. */
  lemma {:induction false} SplitPrefix(w: string, t: string, sep: char)
    requires sep !in w
    ensures Split(w + [sep] + t, sep) == [w] + Split(t, sep)
  {
    if w == [] {
      assert (w + [sep] + t)[1..] == t;
    }
    else {
      assert (w + [sep] + t)[1..] == w[1..] + [sep] + t;
      SplitPrefix(w[1..], t, sep);
      assert [w[0]] + w[1..] == w;
    }
  }

  /** A string splits into one piece exactly when it holds no separator. */
  lemma {:induction false} SplitSingle(s: string, sep: char)
    ensures |Split(s, sep)| == 1 <==> sep !in s
  {
    if s != [] {
      SplitSingle(s[1..], sep);
      assert s == [s[0]] + s[1..];
    }
  }

  /** `email.split('@')[1]`: the text between the first '@' and the next one
      (or the end); undefined (None) exactly when there is no '@'. */
  function DomainOf(email: string): (d: Option<string>)
    ensures d.None? <==> '@' !in email
    ensures d.Some? ==> '@' !in d.value
  {
    var parts := Split(email, '@');
    SplitSingle(email, '@');
    if |parts| >= 2 then Some(parts[1]) else None
  }

  /** Whatever follows the domain after a second '@' is ignored. */
  lemma {:induction false} DomainOfAddress(local: string, domain: string, rest: seq<string>)
    requires '@' !in local && '@' !in domain
    requires forall i :: 0 <= i < |rest| ==> '@' !in rest[i]
    ensures DomainOf(Join([local, domain] + rest, '@')) == Some(domain)
  {
    var parts := [local, domain] + rest;
    forall i | 0 <= i < |parts|
      ensures '@' !in parts[i]
    {
      if i >= 2 {
        assert parts[i] == rest[i - 2];
      }
    }
    SplitJoin(parts, '@');
    assert parts[1] == domain;
  }

  /** The before-hook's test: the domain is defined and is one of the allowed
      domains, compared exactly and case-sensitively. */
  predicate Allowed(email: string)
    ensures Allowed(email) ==> '@' in email
  {
    DomainOf(email).Some? && DomainOf(email).value in AllowedDomains
  }

  datatype HookResult = Continue | Rejected(reason: string)

  /** The `/sign-up` before-hook; every other request passes through unchecked. */
  function BeforeSignUp(path: string, email: string): (r: HookResult)
    ensures r.Rejected? <==> path == SignUpPath && !Allowed(email)
  {
    if path == SignUpPath && !Allowed(email) then Rejected("Domain not allowed for registration")
    else Continue
  }

  /** The role and status a new profile receives. Both come from the same test,
      so a fresh profile is super-admin exactly when it is active. */
  function Provision(email: string): (rs: (Role, ProfileStatus))
    ensures rs.0 == SuperAdmin <==> email == SuperAdminEmail
    ensures rs.1 == Active <==> email == SuperAdminEmail
    ensures rs.1 != Revoked
  {
    var role := if email == SuperAdminEmail then SuperAdmin else Admin;
    var status := if email == SuperAdminEmail then Active else PendingAdmin;
    (role, status)
  }

  /** A fresh profile is never an active admin nor a pending super-admin. */
  lemma ProvisionNeverMixed(email: string)
    ensures Provision(email) != (Admin, Active)
    ensures Provision(email) != (SuperAdmin, PendingAdmin)
  {
  }

  /** The identity the auth provider returns from a successful sign-up. */
  datatype AuthUser = AuthUser(id: Id, email: string)

  /** The row the after-hook inserts; the store stamps both timestamps. */
  function NewProfile(user: AuthUser, stamp: string): (p: UserProfile)
    ensures p.id == user.id && p.email == user.email
    ensures (p.role, p.status) == Provision(user.email)
    ensures p.createdAt == stamp && p.updatedAt == stamp
  {
    var (role, status) := Provision(user.email);
    UserProfile(user.id, user.email, role, status, stamp, stamp)
  }

  /** The domain comparison is case-sensitive: an upper-case domain is refused. */
  lemma UpperCaseDomainRefused()
    ensures !Allowed("x@GMAIL.com")
  {
    var domain := "GMAIL.com";
    DomainOfAddress("x", domain, []);
    assert Join(["x", domain], '@') == "x@GMAIL.com";
    assert domain[0] != "gmail.com"[0] && domain[0] != "org.com"[0];
    assert domain !in AllowedDomains;
  }

  /** The domain comparison is exact: a subdomain of an allowed domain is refused. */
  lemma SubdomainRefused()
    ensures !Allowed("x@mail.gmail.com")
  {
    var domain := "mail.gmail.com";
    DomainOfAddress("x", domain, []);
    assert Join(["x", domain], '@') == "x@mail.gmail.com";
    assert |domain| != |"gmail.com"| && |domain| != |"org.com"|;
    assert domain !in AllowedDomains;
  }

  /** Only the text up to a second '@' is checked, so a trailing '@...' passes. */
  lemma SecondAtIgnored()
    ensures Allowed("a@gmail.com@evil")
  {
    DomainOfAddress("a", "gmail.com", ["evil"]);
    assert Join(["a", "gmail.com", "evil"], '@') == "a@gmail.com@evil";
  }

  lemma OtherDomainRefused()
    ensures !Allowed("a@evil.com")
  {
    var domain := "evil.com";
    DomainOfAddress("a", domain, []);
    assert Join(["a", domain], '@') == "a@evil.com";
    assert |domain| != |"gmail.com"| && domain[0] != "org.com"[0];
    assert domain !in AllowedDomains;
  }

  /** An address without '@' has no domain and is refused. */
  lemma NoAtRefused(email: string)
    requires '@' !in email
    ensures !Allowed(email)
  {
  }

  /** The super-admin address passes its own domain filter. */
  lemma SuperAdminAllowed()
    ensures Allowed(SuperAdminEmail)
  {
    DomainOfAddress("owinovictor91", "gmail.com", []);
    assert Join(["owinovictor91", "gmail.com"], '@') == SuperAdminEmail;
  }
}
