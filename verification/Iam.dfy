/**
 IAM roles, inline policies and instance profiles: setup and teardown
 (cloud/providers/aws/cloud.go, createIAMProfile and deleteRolePolicy).

 The store refuses to delete a role that still has a policy or sits in a profile, and to delete a
 profile that still holds a role. Calls may also fail for reasons of their own, unless `calm`.
 */
module Iam {
  type Name = string

  /** strings.Replace(s, from, to, 1) for a non-empty `from`. */
  function ReplaceFirst(s: string, from: string, to: string): string
    requires from != ""
  {
    if from <= s then to + s[|from|..]
    else if s == "" then s
    else [s[0]] + ReplaceFirst(s[1..], from, to)
  }

  function MasterProfile(cluster: string): Name { "master." + cluster + ".pharmer" }

  function NodeProfile(cluster: string): Name { "node." + cluster + ".pharmer" }

  function ControlPlanePolicyName(cluster: string): Name { "controller." + cluster + ".pharmer" }

  /** Whatever the cluster is called, even "master", the names created are the names deleted. */
  lemma PolicyNamesAgree(cluster: string)
    ensures ReplaceFirst(MasterProfile(cluster), "master", "controller") == ControlPlanePolicyName(cluster)
    ensures ReplaceFirst(MasterProfile(cluster), "master", "node") == NodeProfile(cluster)
    ensures MasterProfile(cluster) != NodeProfile(cluster)
  {
    var s := MasterProfile(cluster);
    assert s == "master" + ("." + cluster + ".pharmer");
    assert s[|"master"|..] == "." + cluster + ".pharmer";
    assert s[0] == 'm' && NodeProfile(cluster)[0] == 'n';
  }

  type Roles = map<Name, set<Name>>

  /** What pharmer's own names may hold at any point between setup and teardown. */
  ghost predicate Bounded(c: string, roles: Roles, profiles: Roles) {
    var m, n := MasterProfile(c), NodeProfile(c);
    && (m in roles ==> roles[m] <= {m, ControlPlanePolicyName(c), n})
    && (n in roles ==> roles[n] <= {n})
    && (m in profiles ==> profiles[m] <= {m})
    && (n in profiles ==> profiles[n] <= {n})
    && forall p :: p in profiles && p != m && p != n ==> m !in profiles[p] && n !in profiles[p]
  }

  /** Both roles complete and both profiles holding their role. */
  ghost predicate Complete(c: string, roles: Roles, profiles: Roles) {
    var m, n := MasterProfile(c), NodeProfile(c);
    && m in roles && roles[m] == {m, ControlPlanePolicyName(c), n}
    && n in roles && roles[n] == {n}
    && m in profiles && profiles[m] == {m}
    && n in profiles && profiles[n] == {n}
  }

  /** Some instance profile holds the role. */
  predicate Held(role: Name, profiles: Roles) {
    exists p | p in profiles :: role in profiles[p]
  }

  class Store {
    var roles: Roles
    var profiles: Roles
    /** How many deletions were refused because something was still attached. */
    var refused: nat

    constructor ()
      ensures roles == map[] && profiles == map[] && refused == 0
    {
      roles, profiles, refused := map[], map[], 0;
    }

    method Fault(calm: bool) returns (fault: bool)
      ensures calm ==> !fault
    {
      fault := *;
      if calm {
        fault := false;
      }
    }

    method CreateRole(role: Name, calm: bool) returns (ok: bool)
      modifies this`roles
      ensures ok ==> role !in old(roles) && roles == old(roles)[role := {}]
      ensures !ok ==> roles == old(roles)
      ensures calm ==> ok == (role !in old(roles))
    {
      var fault := Fault(calm);
      ok := !fault && role !in roles;
      if ok {
        roles := roles[role := {}];
      }
    }

    method PutRolePolicy(role: Name, policy: Name, calm: bool) returns (ok: bool)
      modifies this`roles
      ensures ok ==> role in old(roles) && roles == old(roles)[role := old(roles)[role] + {policy}]
      ensures !ok ==> roles == old(roles)
      ensures calm ==> ok == (role in old(roles))
    {
      var fault := Fault(calm);
      ok := !fault && role in roles;
      if ok {
        roles := roles[role := roles[role] + {policy}];
      }
    }

    method DeleteRolePolicy(role: Name, policy: Name, calm: bool) returns (ok: bool)
      modifies this`roles
      ensures ok ==> role in old(roles) && roles == old(roles)[role := old(roles)[role] - {policy}]
      ensures !ok ==> roles == old(roles)
      ensures calm ==> ok == (role in old(roles) && policy in old(roles)[role])
      ensures roles.Keys == old(roles).Keys
      ensures role in roles ==> old(roles)[role] - {policy} <= roles[role] <= old(roles)[role]
      ensures role in roles && calm ==> policy !in roles[role]
    {
      var fault := Fault(calm);
      ok := !fault && role in roles && policy in roles[role];
      if ok {
        roles := roles[role := roles[role] - {policy}];
      }
    }

    method CreateInstanceProfile(profile: Name, calm: bool) returns (ok: bool)
      modifies this`profiles
      ensures ok ==> profile !in old(profiles) && profiles == old(profiles)[profile := {}]
      ensures !ok ==> profiles == old(profiles)
      ensures calm ==> ok == (profile !in old(profiles))
    {
      var fault := Fault(calm);
      ok := !fault && profile !in profiles;
      if ok {
        profiles := profiles[profile := {}];
      }
    }

    method AddRole(profile: Name, role: Name, calm: bool) returns (ok: bool)
      modifies this`profiles
      ensures ok ==> profile in old(profiles) && profiles == old(profiles)[profile := old(profiles)[profile] + {role}]
      ensures !ok ==> profiles == old(profiles)
      ensures calm ==> ok == (profile in old(profiles) && role in roles)
    {
      var fault := Fault(calm);
      ok := !fault && profile in profiles && role in roles;
      if ok {
        profiles := profiles[profile := profiles[profile] + {role}];
      }
    }

    method RemoveRole(profile: Name, role: Name, calm: bool) returns (ok: bool)
      modifies this`profiles
      ensures ok ==> profile in old(profiles) && profiles == old(profiles)[profile := old(profiles)[profile] - {role}]
      ensures !ok ==> profiles == old(profiles)
      ensures calm ==> ok == (profile in old(profiles) && role in old(profiles)[profile])
    {
      var fault := Fault(calm);
      ok := !fault && profile in profiles && role in profiles[profile];
      if ok {
        profiles := profiles[profile := profiles[profile] - {role}];
      }
    }

    method DeleteRole(role: Name, calm: bool) returns (ok: bool)
      modifies this`roles, this`refused
      ensures ok ==> role in old(roles) && roles == old(roles) - {role}
      ensures !ok ==> roles == old(roles)
      ensures role in old(roles) && (old(roles)[role] != {} || Held(role, profiles)) ==>
                !ok && refused == old(refused) + 1
      ensures !(role in old(roles) && (old(roles)[role] != {} || Held(role, profiles))) ==>
                refused == old(refused) && (calm ==> ok == (role in old(roles)))
    {
      var fault := Fault(calm);
      ok := false;
      if role in roles && (roles[role] != {} || Held(role, profiles)) {
        refused := refused + 1;
      } else if !fault && role in roles {
        roles, ok := roles - {role}, true;
      }
    }

    method DeleteInstanceProfile(profile: Name, calm: bool) returns (ok: bool)
      modifies this`profiles, this`refused
      ensures ok ==> profile in old(profiles) && profiles == old(profiles) - {profile}
      ensures !ok ==> profiles == old(profiles)
      ensures profile in old(profiles) && old(profiles)[profile] != {} ==> !ok && refused == old(refused) + 1
      ensures !(profile in old(profiles) && old(profiles)[profile] != {})
              ==> refused == old(refused) && (calm ==> ok == (profile in old(profiles)))
    {
      var fault := Fault(calm);
      ok := false;
      if profile in profiles && profiles[profile] != {} {
        refused := refused + 1;
      } else if !fault && profile in profiles {
        profiles, ok := profiles - {profile}, true;
      }
    }

    /** The inline policies of a new role. */
    method PutPolicies(master: bool, key: Name, calm: bool) returns (ok: bool)
      requires key in roles && roles[key] == {}
      modifies this`roles
      ensures key in roles && roles == old(roles)[key := roles[key]]
      ensures roles[key] <= Policies(master, key) && (ok ==> roles[key] == Policies(master, key))
      ensures calm ==> ok
    {
      hide ReplaceFirst;
      ok := PutRolePolicy(key, key, calm);
      if !ok || !master {
        return;
      }
      ok := PutRolePolicy(key, ReplaceFirst(key, "master", "controller"), calm);
      if !ok {
        return;
      }
      ok := PutRolePolicy(key, ReplaceFirst(key, "master", "node"), calm);
    }

    /**
     createIAMProfile. Without an AWS session it reports success, with nothing created; with one, success
     means that everything was.
     */
    method CreateProfile(master: bool, key: Name, session: bool, calm: bool) returns (ok: bool)
      modifies this`roles, this`profiles
      ensures !session ==> ok && roles == old(roles) && profiles == old(profiles)
      ensures session && ok ==>
                && key in roles && roles[key] == Policies(master, key)
                && key in profiles && profiles[key] == {key}
      ensures SameOutside({key}, old(roles), roles) && SameOutside({key}, old(profiles), profiles)
      ensures key in old(roles) ==> roles == old(roles) && profiles == old(profiles)
      ensures key !in old(roles) && key in roles ==> roles[key] <= Policies(master, key)
      ensures key in old(profiles) ==> profiles == old(profiles)
      ensures key !in old(profiles) && key in profiles ==> profiles[key] <= {key}
      ensures calm && key !in old(roles) && key !in old(profiles) ==> ok
    {
      hide Policies;
      if !session {
        return true;
      }
      var noIdentity := Fault(calm);
      if noIdentity {
        return false;
      }
      ok := CreateRole(key, calm);
      if !ok {
        return;
      }
      ok := PutPolicies(master, key, calm);
      if !ok {
        return;
      }
      ok := CreateInstanceProfile(key, calm);
      if !ok {
        return;
      }
      ok := AddRole(key, key, calm);
    }

    /**
     ensureIAMProfile. Any mix of failures leaves only names that teardown knows; without failures,
     starting from nothing, everything is created, or nothing when no session opens.
     */
    method EnsureProfiles(c: string, session: bool, calm: bool) returns (ok: bool)
      requires Bounded(c, roles, profiles)
      modifies this`roles, this`profiles
      ensures Bounded(c, roles, profiles)
      ensures OthersKept(c, old(roles), roles) && OthersKept(c, old(profiles), profiles)
      ensures calm && Absent(c, old(roles), old(profiles)) ==>
                ok && if session then Complete(c, roles, profiles) else roles == old(roles) && profiles == old(profiles)
      ensures calm && Complete(c, old(roles), old(profiles)) ==>
                ok && roles == old(roles) && profiles == old(profiles)
    {
      PolicyNamesAgree(c);
      var m, n := MasterProfile(c), NodeProfile(c);
      var lookup := Fault(calm);
      if lookup {
        return false;
      }
      if m !in profiles {
        ok := CreateProfile(true, m, session, calm);
        assert m in roles ==> roles[m] <= {m, ControlPlanePolicyName(c), n};
        if !ok {
          return;
        }
      }
      lookup := Fault(calm);
      if lookup {
        return false;
      }
      ok := true;
      if n !in profiles {
        ok := CreateProfile(false, n, session, calm);
      }
    }

    /** The calls of deleteRolePolicy that empty the role and its profile. */
    method Detach(role: Name, master: bool, node: Name, control: Name, calm: bool)
      requires role in roles ==> roles[role] <= if master then {role, node, control} else {role}
      requires role in profiles ==> profiles[role] <= {role}
      modifies this`roles, this`profiles
      ensures roles.Keys == old(roles).Keys && profiles.Keys == old(profiles).Keys
      ensures SameOutside({role}, old(roles), roles) && SameOutside({role}, old(profiles), profiles)
      ensures role in roles ==> roles[role] <= old(roles)[role]
      ensures role in profiles ==> profiles[role] <= old(profiles)[role]
      ensures calm && role in roles ==> roles[role] == {}
      ensures calm && role in profiles ==> profiles[role] == {}
    {
      var _ := RemoveRole(role, role, calm);
      var _ := DeleteRolePolicy(role, role, calm);
      if master {
        var _ := DeleteRolePolicy(role, node, calm);
        var _ := DeleteRolePolicy(role, control, calm);
      }
    }

    /** deleteRolePolicy. Every error is logged and the next call is made all the same. */
    method DeleteRolePolicies(role: Name, master: bool, node: Name, control: Name, calm: bool)
      requires role in roles ==> roles[role] <= if master then {role, node, control} else {role}
      requires role in profiles ==> profiles[role] <= {role}
      requires forall p :: p in profiles && p != role ==> role !in profiles[p]
      modifies this
      ensures SameOutside({role}, old(roles), roles) && SameOutside({role}, old(profiles), profiles)
      ensures role in roles ==> role in old(roles) && roles[role] <= old(roles)[role]
      ensures role in profiles ==> role in old(profiles) && profiles[role] <= old(profiles)[role]
      ensures calm ==> role !in roles && role !in profiles && refused == old(refused)
    {
      Detach(role, master, node, control, calm);
      assert calm ==> !Held(role, profiles);
      var _ := DeleteRole(role, calm);
      var _ := DeleteInstanceProfile(role, calm);
    }

    /** deleteIAMProfile. From any state setup can leave behind, no deletion is refused and nothing is left. */
    method DeleteProfiles(c: string, calm: bool)
      requires Bounded(c, roles, profiles)
      modifies this
      ensures Bounded(c, roles, profiles)
      ensures OthersKept(c, old(roles), roles) && OthersKept(c, old(profiles), profiles)
      ensures calm ==> Absent(c, roles, profiles) && refused == old(refused)
    {
      PolicyNamesAgree(c);
      DeleteRolePolicies(MasterProfile(c), true, NodeProfile(c), ControlPlanePolicyName(c), calm);
      DeleteRolePolicies(NodeProfile(c), false, NodeProfile(c), ControlPlanePolicyName(c), calm);
    }
  }

  function Policies(master: bool, key: Name): set<Name> {
    if master then {key, ReplaceFirst(key, "master", "controller"), ReplaceFirst(key, "master", "node")} else {key}
  }

  /** Nothing outside `names` was created, changed or deleted. */
  ghost predicate SameOutside(names: set<Name>, before: Roles, after: Roles) {
    forall k :: k !in names ==> (k in before <==> k in after) && (k in before ==> before[k] == after[k])
  }

  ghost predicate OthersKept(c: string, before: Roles, after: Roles) {
    SameOutside({MasterProfile(c), NodeProfile(c)}, before, after)
  }

  ghost predicate Absent(c: string, roles: Roles, profiles: Roles) {
    var m, n := MasterProfile(c), NodeProfile(c);
    m !in roles && n !in roles && m !in profiles && n !in profiles
  }

  lemma AbsentAgain(c: string, roles: Roles, profiles: Roles, roles': Roles, profiles': Roles)
    requires Absent(c, roles, profiles) && Absent(c, roles', profiles')
    requires OthersKept(c, roles, roles') && OthersKept(c, profiles, profiles')
    ensures roles == roles' && profiles == profiles'
  {
  }

  /** Any number of setup attempts, each failing anywhere, then one teardown: IAM is as it was. */
  method SetupsThenTeardown(s: Store, c: string, attempts: nat)
    requires Absent(c, s.roles, s.profiles)
    requires Bounded(c, s.roles, s.profiles)
    modifies s
    ensures s.roles == old(s.roles) && s.profiles == old(s.profiles) && s.refused == old(s.refused)
  {
    for i := 0 to attempts
      invariant Bounded(c, s.roles, s.profiles) && s.refused == old(s.refused)
      invariant OthersKept(c, old(s.roles), s.roles) && OthersKept(c, old(s.profiles), s.profiles)
    {
      var session := *;
      var _ := s.EnsureProfiles(c, session, false);
    }
    s.DeleteProfiles(c, true);
  }
}
