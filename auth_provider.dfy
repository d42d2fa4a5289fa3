/** components/Auth/Provider.tsx: the gate in front of every page. No
    unscoped token: the login view. Project roles present but none of them
    "member" or "reader" (ignoring case): the Access Denied view. Otherwise
    the page itself. */
module AuthProvider {

  import opened Wrappers
  import opened Session

  datatype View = LoginView | AccessDenied | Children

  const AllowedRoles: seq<string> := ["member", "reader"]

  /** `toLowerCase` on one character, for the Latin letters A to Z. */
  function LowerChar(c: char): char {
    if 'A' <= c <= 'Z' then (c as int - 'A' as int + 'a' as int) as char else c
  }

  function Lower(s: string): (t: string)
    ensures |t| == |s|
    ensures forall i :: 0 <= i < |s| ==> t[i] == LowerChar(s[i])
  {
    if s == [] then [] else [LowerChar(s[0])] + Lower(s[1..])
  }

  /** Lowercasing twice is lowercasing once. */
  lemma {:induction false} LowerIdempotent(s: string)
    ensures Lower(Lower(s)) == Lower(s)
  {
    var t := Lower(s);
    assert forall i :: 0 <= i < |s| ==> Lower(t)[i] == LowerChar(LowerChar(s[i])) == t[i];
  }

  /** `allowedRoles.some(role => userRoles.includes(role))` with
      `userRoles = roles.map(role => role.name.toLowerCase())`. */
  function HasAllowedRole(roles: seq<Role>): (b: bool)
    ensures b <==> exists i :: 0 <= i < |roles| && (Lower(roles[i].name) == "member" || Lower(roles[i].name) == "reader")
  {
    var userRoles := seq(|roles|, i requires 0 <= i < |roles| => Lower(roles[i].name));
    IncludesAt(userRoles, roles);
    exists a :: a in AllowedRoles && a in userRoles
  }

  lemma IncludesAt(userRoles: seq<string>, roles: seq<Role>)
    requires |userRoles| == |roles|
    requires forall i :: 0 <= i < |roles| ==> userRoles[i] == Lower(roles[i].name)
    ensures (exists a :: a in AllowedRoles && a in userRoles) <==>
            exists i :: 0 <= i < |roles| && (Lower(roles[i].name) == "member" || Lower(roles[i].name) == "reader")
  {
    if exists i :: 0 <= i < |roles| && (Lower(roles[i].name) == "member" || Lower(roles[i].name) == "reader") {
      var i :| 0 <= i < |roles| && (Lower(roles[i].name) == "member" || Lower(roles[i].name) == "reader");
      assert userRoles[i] in AllowedRoles && userRoles[i] in userRoles;
    }
  }

  /** `Provider({children})`, reduced to which view it returns. */
  function Provide(unscopedToken: Option<string>, projectData: Option<ProjectData>): (v: View)
    ensures v == LoginView <==> !Truthy(unscopedToken)
    ensures v == AccessDenied <==>
      Truthy(unscopedToken) && projectData.Some? && projectData.value.roles.Some?
      && !HasAllowedRole(projectData.value.roles.value)
    ensures Truthy(unscopedToken) && (projectData.None? || projectData.value.roles.None?) ==> v == Children
  {
    if !Truthy(unscopedToken) then LoginView
    else if projectData.Some? && projectData.value.roles.Some? && !HasAllowedRole(projectData.value.roles.value)
    then AccessDenied
    else Children
  }

  /** The role check ignores case: roles whose names agree up to case are
      judged alike. */
  lemma RoleCheckIgnoresCase(r1: seq<Role>, r2: seq<Role>)
    requires |r1| == |r2|
    requires forall i :: 0 <= i < |r1| ==> Lower(r1[i].name) == Lower(r2[i].name)
    ensures HasAllowedRole(r1) == HasAllowedRole(r2)
  {
  }

  /** Renaming every role to its lowercase form does not change the verdict. */
  lemma {:induction false} LowercasedRolesJudgedAlike(roles: seq<Role>)
    ensures HasAllowedRole(roles) == HasAllowedRole(seq(|roles|, i requires 0 <= i < |roles| => Role(Lower(roles[i].name))))
  {
    var lowered := seq(|roles|, i requires 0 <= i < |roles| => Role(Lower(roles[i].name)));
    forall i | 0 <= i < |roles| ensures Lower(lowered[i].name) == Lower(roles[i].name) {
      LowerIdempotent(roles[i].name);
    }
    RoleCheckIgnoresCase(roles, lowered);
  }

  /** An empty role list is present and so is checked, and it denies; a
      "Member" role admits. */
  lemma RoleExamples(token: string, catalog: Option<seq<Catalog.CatalogEntry>>)
    requires token != ""
    ensures Provide(Some(token), Some(ProjectData(catalog, Some([])))) == AccessDenied
    ensures Provide(Some(token), Some(ProjectData(catalog, Some([Role("Member")])))) == Children
  {
    var t := Lower("Member");
    assert t[0] == 'm' && t[1] == 'e' && t[2] == 'm' && t[3] == 'b' && t[4] == 'e' && t[5] == 'r';
    assert t == "member";
    assert Lower([Role("Member")][0].name) == "member";
  }
}
