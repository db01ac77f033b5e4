/** Permission strings: which ones a held list grants, and how lists are cleaned. */
module Permissions {

  const ALL := "*"
  const ADMIN_ALL := "admin.*"
  const USER_CREATE := "user.create"
  const USER_READ := "user.read"
  const USER_PERMISSIONS_UPDATE := "user.permissions.update"
  const USER_PASSWORD_UPDATE := "user.password.update"
  const USER_STATUS_UPDATE := "user.status.update"

  predicate HasPrefix(s: string, p: string) {
    |p| <= |s| && s[..|p|] == p
  }

  predicate HasSuffix(s: string, p: string) {
    |p| <= |s| && s[|s| - |p|..] == p
  }

  /** Whether a token such as product.* grants a permission; the two global wildcards are handled apart. */
  predicate WildcardGrants(wildcard: string, required: string) {
    wildcard != ALL && wildcard != ADMIN_ALL && HasSuffix(wildcard, ".*")
    && var prefix := wildcard[..|wildcard| - 2];
       prefix != "" && (required == prefix || HasPrefix(required, prefix + "."))
  }

  /** Whether one held token grants the required permission. */
  predicate TokenGrants(h: string, required: string) {
    h == required || WildcardGrants(h, required) || (h == ADMIN_ALL && HasPrefix(required, "user.")) || h == ALL
  }

  predicate Has(held: seq<string>, required: string) {
    (exists h :: h in held && h == required)
    || (exists h :: h in held && WildcardGrants(h, required))
    || (exists h :: h in held && h == ADMIN_ALL && HasPrefix(required, "user."))
    || ALL in held
  }

  /** The four passes of the evaluator come to: some held token grants it. */
  lemma HasIsTokenwise(held: seq<string>, required: string)
    ensures Has(held, required) <==> exists h :: h in held && TokenGrants(h, required)
  {
    if Has(held, required) {
      if ALL in held {
        assert TokenGrants(ALL, required);
      }
    }
  }

  /** A group token such as product.* grants its own name, its group and everything below it, and nothing else. */
  lemma GroupTokensGrant(group: string, required: string)
    requires group != "" && group != "admin"
    ensures TokenGrants(group + ".*", required) <==>
            required == group + ".*" || required == group || HasPrefix(required, group + ".")
  {
    var h := group + ".*";
    assert HasSuffix(h, ".*") && h[..|h| - 2] == group;
    assert ADMIN_ALL[..|ADMIN_ALL| - 2] == "admin";
  }

  /** The star grants everything, admin.* grants what concerns users, and a token without a wildcard only itself. */
  lemma OtherTokensGrant(h: string, required: string)
    ensures TokenGrants("*", required)
    ensures TokenGrants("admin.*", required) <==> required == "admin.*" || HasPrefix(required, "user.")
    ensures h != "*" && !HasSuffix(h, ".*") ==> (TokenGrants(h, required) <==> required == h)
  {
  }

  // ------------------------------------------------------------------ Dedupe

  /** First occurrences of the nonempty entries, in order. */
  function Deduped(perms: seq<string>): seq<string> {
    if perms == [] then []
    else
      var init := Deduped(perms[..|perms| - 1]);
      var p := perms[|perms| - 1];
      if p == "" || p in init then init else init + [p]
  }

  method Dedupe(perms: seq<string>) returns (out: seq<string>)
    ensures out == Deduped(perms)
  {
    var seen: set<string> := {};
    out := [];
    for i := 0 to |perms|
      invariant out == Deduped(perms[..i])
      invariant forall p :: p in seen <==> p in out
    {
      assert perms[..i + 1][..i] == perms[..i];
      if perms[i] == "" || perms[i] in seen {
        continue;
      }
      seen := seen + {perms[i]};
      out := out + [perms[i]];
    }
    assert perms[..|perms|] == perms;
  }

  /** No repeats, no blanks, nothing else lost, and first-seen order kept. */
  lemma {:induction false} DedupeKeepsEachOnce(perms: seq<string>)
    ensures var d := Deduped(perms);
            && (forall i, j :: 0 <= i < j < |d| ==> d[i] != d[j])
            && (forall p :: p in d <==> p in perms && p != "")
            && (forall i, j :: 0 <= i < j < |d| ==> FirstAt(perms, d[i]) < FirstAt(perms, d[j]))
  {
    if perms != [] {
      var init, p := perms[..|perms| - 1], perms[|perms| - 1];
      DedupeKeepsEachOnce(init);
      assert perms == init + [p];
      var d := Deduped(perms);
      forall q | q in init ensures FirstAt(perms, q) == FirstAt(init, q) < |init| {
        FirstAtPrefix(init, p, q);
      }
      forall i, j | 0 <= i < j < |d| ensures d[i] != d[j] && FirstAt(perms, d[i]) < FirstAt(perms, d[j]) {
        if j == |Deduped(init)| {
          assert d[i] in Deduped(init);
          FirstAtNew(init, p);
        } else {
          assert d[i] in Deduped(init) && d[j] in Deduped(init);
        }
      }
    }
  }

  /** The position of the first occurrence, or the length when there is none. */
  function FirstAt(s: seq<string>, p: string): nat {
    if s == [] then 0 else if s[0] == p then 0 else 1 + FirstAt(s[1..], p)
  }

  lemma {:induction false} FirstAtPrefix(s: seq<string>, x: string, p: string)
    requires p in s
    ensures FirstAt(s + [x], p) == FirstAt(s, p) < |s|
  {
    if s[0] != p {
      FirstAtPrefix(s[1..], x, p);
      assert (s + [x])[1..] == s[1..] + [x];
    }
  }

  lemma {:induction false} FirstAtNew(s: seq<string>, x: string)
    ensures x !in s ==> FirstAt(s + [x], x) == |s|
  {
    if s != [] {
      FirstAtNew(s[1..], x);
      assert (s + [x])[1..] == s[1..] + [x];
    }
  }

  /** Cleaning a list changes no grant, except that a blank entry stops granting the blank permission. */
  lemma DedupeKeepsGrants(perms: seq<string>, required: string)
    ensures Has(Deduped(perms), required) <==>
            Has(perms, required) && (required == "" ==> ALL in perms)
  {
    DedupeKeepsEachOnce(perms);
    HasIsTokenwise(perms, required);
    HasIsTokenwise(Deduped(perms), required);
  }

  // ---------------------------------------------------------------- validity

  predicate SlugChar(c: char) {
    'a' <= c <= 'z' || '0' <= c <= '9' || c == '_'
  }

  /** known stands for the catalog of concrete permissions. */
  predicate Valid(known: set<string>, s: string) {
    s != "" && (s == ALL
                || if HasSuffix(s, ".*") then
                     |s| > 2 && forall i :: 0 <= i < |s| - 2 ==> SlugChar(s[i])
                   else s in known)
  }

  /** A group token is valid exactly when its group is a slug, any other one when it is the star or known. */
  lemma WhatIsValid(known: set<string>, group: string, s: string)
    ensures Valid(known, group + ".*") <==>
            group != "" && forall c :: c in group ==> 'a' <= c <= 'z' || '0' <= c <= '9' || c == '_'
    ensures !HasSuffix(s, ".*") ==> (Valid(known, s) <==> s == "*" || (s != "" && s in known))
  {
    var h := group + ".*";
    assert HasSuffix(h, ".*") && |h| == |group| + 2;
    forall i | 0 <= i < |group| ensures h[i] == group[i] && group[i] in group {
    }
    forall c | c in group ensures exists i :: 0 <= i < |h| - 2 && h[i] == c {
      var i :| 0 <= i < |group| && group[i] == c;
      assert h[i] == c;
    }
  }

  /** Among valid tokens only * grants everything: no other one grants *. */
  lemma OnlyStarGrantsStar(known: set<string>, perms: seq<string>)
    requires forall p :: p in perms ==> Valid(known, p)
    requires ALL !in perms
    ensures !Has(perms, ALL)
  {
    forall h | h in perms ensures !TokenGrants(h, ALL) {
      if HasSuffix(h, ".*") {
        assert SlugChar(h[0]);
        var prefix := h[..|h| - 2];
        assert prefix[0] == h[0];
        assert prefix != ALL;
      }
    }
    HasIsTokenwise(perms, ALL);
  }
}
