/**
 The LDAP directory and what LdapProvisioningService does to it
 (backend/services/provisioning/ldap_provider.py): functions on the directory's
 contents, what they mean, and the methods that carry them out.
 */
module Directory {
  import opened Common
  import opened IsoTime
  import opened OnboardingModel

  /** An absent attribute reads as the empty string, as the code treats it. */
  datatype Entry = Entry(employeeNumber: UserId, profile: Profile, description: string)

  datatype Contents = Contents(entries: map<Dn, Entry>, groups: map<string, set<Dn>>)

  datatype DirError = Conflict | ExternalService | NotFound | BadTimestamp

  datatype Deactivated = Deactivated(userId: UserId, externalId: Dn, profile: Profile, offboardedAt: Stamp)

  /**
   How the server answers the edits of one call whose result codes the code ignores: the groups at which it
   refuses the member edit, and whether it accepts the write of the entry itself.
   */
  datatype Answer = Answer(refusing: set<string>, accepted: bool)

  /** An LDAPException ends the call before anything is edited, or behind edits of which some were still made. */
  datatype Ending = Completes | FailsFirst | FailsLater

  /** A single write: whether the server makes it, and whether the client learns what became of it. */
  datatype Write = Write(accepted: bool, answered: bool)

  const OFFBOARDED_TAG := "offboarded:"

  // ---------------------------------------------------------------- functions on the contents

  /** The entries `(employeeNumber=<u>)` finds. */
  function Matching(d: Contents, u: UserId): set<Dn> {
    set dn | dn in d.entries && d.entries[dn].employeeNumber == u
  }

  function WithEntry(d: Contents, u: UserId, profile: Profile): Contents {
    d.(entries := d.entries[DnOf(profile.email) := Entry(u, profile, "active")])
  }

  /** Get-or-create: the group appears with its first member. */
  function Joined(d: Contents, department: string, dn: Dn): Contents {
    d.(groups := d.groups[department := (if department in d.groups then d.groups[department] else {}) + {dn}])
  }

  /** groupOfNames must keep a member (section 3.5 of RFC 4519), so deleting the last one is refused. */
  function WithoutMember(members: set<Dn>, dn: Dn): set<Dn> {
    if members == {dn} then members else members - {dn}
  }

  function LeftGroups(d: Contents, dn: Dn, refusing: set<string>): Contents {
    d.(groups := map g | g in d.groups :: if g in refusing then d.groups[g] else WithoutMember(d.groups[g], dn))
  }

  function Removed(d: Contents, dn: Dn, answer: Answer): Contents {
    var left := LeftGroups(d, dn, answer.refusing);
    if answer.accepted then left.(entries := left.entries - {dn}) else left
  }

  predicate IsOffboarded(e: Entry) {
    OFFBOARDED_TAG <= e.description
  }

  /** The time behind the tag; None where reading it raises. */
  function OffboardTime(e: Entry): Option<Stamp>
    requires IsOffboarded(e)
  {
    FromIsoFormat(e.description[|OFFBOARDED_TAG|..])
  }

  /** Deactivation of an entry that exists: a no-op on one that carries the tag. */
  function Offboarded(d: Contents, dn: Dn, at: Stamp, answer: Answer): Contents
    requires dn in d.entries
  {
    if IsOffboarded(d.entries[dn]) then d
    else
      var left := LeftGroups(d, dn, answer.refusing);
      if answer.accepted
      then left.(entries := left.entries[dn := d.entries[dn].(description := OFFBOARDED_TAG + IsoFormat(at))])
      else left
  }

  // ---------------------------------------------------------------- what they mean

  ghost predicate GroupsInhabited(d: Contents) {
    forall g | g in d.groups :: d.groups[g] != {}
  }

  /** The new member is in, the others stay in, and no other group or entry is touched. */
  lemma JoiningGroup(d: Contents, department: string, dn: Dn)
    ensures var joined := Joined(d, department, dn);
            && joined.entries == d.entries && joined.groups.Keys == d.groups.Keys + {department}
            && (forall g | g in d.groups && g != department :: joined.groups[g] == d.groups[g])
            && dn in joined.groups[department]
            && joined.groups[department] - {dn} == (if department in d.groups then d.groups[department] - {dn} else {})
  {
  }

  /** A new entry carries its user's number and fields, is not offboarded, and is the only one that changes. */
  lemma NewEntry(d: Contents, u: UserId, profile: Profile)
    ensures var added := WithEntry(d, u, profile);
            && added.groups == d.groups && added.entries.Keys == d.entries.Keys + {DnOf(profile.email)}
            && added.entries - {DnOf(profile.email)} == d.entries - {DnOf(profile.email)}
            && added.entries[DnOf(profile.email)].employeeNumber == u
            && added.entries[DnOf(profile.email)].profile == profile
            && !IsOffboarded(added.entries[DnOf(profile.email)])
  {
  }

  /** Deleting an entry leaves its groups first, and takes nothing but that entry, if it takes it. */
  lemma RemovingEntry(d: Contents, dn: Dn, answer: Answer)
    ensures var removed := Removed(d, dn, answer);
            && removed.groups == LeftGroups(d, dn, answer.refusing).groups
            && removed.entries - {dn} == d.entries - {dn}
            && (dn in removed.entries <==> dn in d.entries && !answer.accepted)
            && (dn in removed.entries ==> removed.entries[dn] == d.entries[dn])
  {
  }

  /**
   The user leaves every group that has another member and does not refuse; other members and other groups
   are untouched.
   */
  lemma LeavingGroups(d: Contents, dn: Dn, refusing: set<string>)
    ensures var left := LeftGroups(d, dn, refusing);
            && left.entries == d.entries && left.groups.Keys == d.groups.Keys
            && (forall g | g in d.groups ::
                  && left.groups[g] - {dn} == d.groups[g] - {dn}
                  && (dn in left.groups[g] <==> dn in d.groups[g] && (g in refusing || d.groups[g] == {dn})))
            && (GroupsInhabited(d) <==> GroupsInhabited(left))
            && LeftGroups(left, dn, refusing) == left
  {
    var left := LeftGroups(d, dn, refusing);
    forall g | g in d.groups
      ensures left.groups[g] == {} <==> d.groups[g] == {}
      ensures dn in left.groups[g] <==> dn in d.groups[g] && (g in refusing || d.groups[g] == {dn})
      ensures left.groups[g] - {dn} == d.groups[g] - {dn}
      ensures LeftGroups(left, dn, refusing).groups[g] == left.groups[g]
    {
      assert d.groups[g] <= {dn} ==> d.groups[g] == {} || d.groups[g] == {dn};
    }
    assert LeftGroups(left, dn, refusing).groups == left.groups;
  }

  /**
   The tag is there afterwards exactly when its write was accepted or it was there before, and then its time is
   what every later offboarding reads back, and later ones change nothing.
   */
  lemma OffboardOnce(d: Contents, dn: Dn, first: Stamp, second: Stamp, a: Answer, b: Answer)
    requires dn in d.entries && Valid(first)
    ensures var was, once := d.entries[dn], Offboarded(d, dn, first, a);
            && dn in once.entries && once.entries - {dn} == d.entries - {dn}
            && once.entries[dn].employeeNumber == was.employeeNumber && once.entries[dn].profile == was.profile
            && (IsOffboarded(once.entries[dn]) <==> a.accepted || IsOffboarded(was))
            && (IsOffboarded(once.entries[dn]) ==>
                  && Offboarded(once, dn, second, b) == once
                  && OffboardTime(once.entries[dn]) == if IsOffboarded(was) then OffboardTime(was) else Some(first))
  {
    var once := Offboarded(d, dn, first, a);
    if !IsOffboarded(d.entries[dn]) && a.accepted {
      assert once.entries[dn].description[|OFFBOARDED_TAG|..] == IsoFormat(first);
      IsoRoundTrip(first);
    }
  }

  /** Offboarding and deleting touch one entry: for another user the directory answers as before. */
  lemma OthersUntouched(d: Contents, dn: Dn, at: Stamp, answer: Answer, other: UserId)
    requires dn in d.entries && d.entries[dn].employeeNumber != other
    ensures Matching(Removed(d, dn, answer), other) == Matching(d, other)
    ensures Matching(Offboarded(d, dn, at, answer), other) == Matching(d, other)
    ensures forall x | x in Matching(d, other) ::
              && Removed(d, dn, answer).entries[x] == d.entries[x]
              && Offboarded(d, dn, at, answer).entries[x] == d.entries[x]
  {
  }

  // ---------------------------------------------------------------- the server

  class DirectoryServer {
    var entries: map<Dn, Entry>
    var groups: map<string, set<Dn>>

    constructor (d: Contents)
      ensures Model() == d
    {
      entries, groups := d.entries, d.groups;
    }

    function Model(): Contents
      reads this
    {
      Contents(entries, groups)
    }

    /** MODIFY_DELETE of one member: false when the server refuses, which for the last member it always does. */
    method DeleteMember(group: string, dn: Dn, refused: bool) returns (modified: bool)
      requires group in groups
      modifies this`groups
      ensures groups
              == old(groups)[group := if refused then old(groups)[group] else WithoutMember(old(groups)[group], dn)]
      ensures modified <==> !refused && dn in old(groups)[group] && old(groups)[group] != {dn}
    {
      modified := !refused && dn in groups[group] && groups[group] != {dn};
      if modified {
        groups := groups[group := groups[group] - {dn}];
      } else {
        assert refused || WithoutMember(groups[group], dn) == groups[group];
      }
    }

    /** The result of adding to an existing group is ignored; that of creating one is not. */
    method EnsureGroupMembership(department: string, dn: Dn, edit: Write) returns (r: Result<(), DirError>)
      modifies this`groups
      ensures r == if edit.answered && (edit.accepted || department in old(groups)) then Ok(())
                   else Err(ExternalService)
      ensures Model() == if edit.accepted then Joined(old(Model()), department, dn) else old(Model())
    {
      if department in groups {
        if edit.accepted {
          groups := groups[department := groups[department] + {dn}];
        }
      } else {
        if edit.accepted {
          assert {} + {dn} == {dn};
          groups := groups[department := {dn}];
        } else {
          return Err(ExternalService);
        }
      }
      r := if edit.answered then Ok(()) else Err(ExternalService);
    }

    /** A group edit that fails, like an add whose answer is lost, leaves the new entry behind. */
    method CreateUser(u: UserId, profile: Profile, add: Write, group: Write) returns (r: Result<Provisioned, DirError>)
      modifies this
      ensures var dn := DnOf(profile.email);
              var added := WithEntry(old(Model()), u, profile);
              if dn in old(entries) then r == Err(if add.answered then Conflict else ExternalService)
                  && Model() == old(Model())
              else if !add.accepted then r == Err(ExternalService) && Model() == old(Model())
              else if !add.answered then r == Err(ExternalService) && Model() == added
              else
                && Model() == (if group.accepted then Joined(added, profile.department, dn) else added)
                && r == if group.answered && (group.accepted || profile.department in old(groups))
                        then Ok(Provisioned(u, Some(dn), profile)) else Err(ExternalService)
    {
      var dn := DnOf(profile.email);
      var taken := dn in entries;
      if !taken && add.accepted {
        entries := entries[dn := Entry(u, profile, "active")];
      }
      if !add.answered {
        return Err(ExternalService);
      }
      if taken || !add.accepted {
        return Err(if taken then Conflict else ExternalService);
      }
      var joined := EnsureGroupMembership(profile.department, dn, group);
      if joined.Err? {
        return Err(joined.error);
      }
      r := Ok(Provisioned(u, Some(dn), profile));
    }

    /** Searches the groups naming `dn` and drops it from each, ignoring refusals. */
    method LeaveAllGroups(dn: Dn, refusing: set<string>)
      modifies this`groups
      ensures Model() == LeftGroups(old(Model()), dn, refusing)
    {
      var before := groups;
      var after := LeftGroups(Model(), dn, refusing).groups;
      var found := set g | g in before && dn in before[g];
      var todo := found;
      while todo != {}
        invariant todo <= found
        invariant groups.Keys == before.Keys
        invariant forall g | g in before :: groups[g] == if g in found - todo then after[g] else before[g]
        decreases todo
      {
        var g :| g in todo;
        var _ := DeleteMember(g, dn, g in refusing);
        todo := todo - {g};
      }
      forall g | g in before ensures groups[g] == after[g] {
        if g !in found {
          assert before[g] - {dn} == before[g];
        }
      }
    }

    method DeactivateUser(u: UserId, now: Stamp, answer: Answer, ending: Ending)
      returns (r: Result<Deactivated, DirError>)
      modifies this
      ensures ending.FailsFirst? ==> r == Err(ExternalService) && Model() == old(Model())
      ensures !ending.FailsFirst? && Matching(old(Model()), u) == {} ==> r == Err(NotFound) && Model() == old(Model())
      ensures !ending.FailsFirst? && Matching(old(Model()), u) != {} ==>
                exists dn ::
                  && dn in Matching(old(Model()), u)
                  && Model() == Offboarded(old(Model()), dn, now, answer)
                  && var e := old(entries)[dn];
                     var at := if IsOffboarded(e) then OffboardTime(e) else Some(now);
                     r == if at.None? then Err(BadTimestamp)
                          else if ending.FailsLater? then Err(ExternalService)
                          else Ok(Deactivated(u, dn, e.profile, at.value))
    {
      if ending.FailsFirst? {
        return Err(ExternalService);
      }
      var found := Matching(Model(), u);
      if found == {} {
        return Err(NotFound);
      }
      var dn :| dn in found;
      var entry := entries[dn];
      var at := now;
      if OFFBOARDED_TAG <= entry.description {
        var parsed := FromIsoFormat(entry.description[|OFFBOARDED_TAG|..]);
        if parsed.None? {
          return Err(BadTimestamp);
        }
        at := parsed.value;
      } else {
        LeaveAllGroups(dn, answer.refusing);
        if answer.accepted {
          entries := entries[dn := entry.(description := OFFBOARDED_TAG + IsoFormat(at))];
        }
      }
      r := if ending.FailsLater? then Err(ExternalService) else Ok(Deactivated(u, dn, entry.profile, at));
    }

    /** Idempotent: no entry, nothing to do. A refusal is not noticed. */
    method DeleteUser(u: UserId, answer: Answer, ending: Ending) returns (r: Result<(), DirError>)
      modifies this
      ensures r == if ending.Completes? || (ending.FailsLater? && Matching(old(Model()), u) == {}) then Ok(())
                   else Err(ExternalService)
      ensures ending.FailsFirst? || Matching(old(Model()), u) == {} ==> Model() == old(Model())
      ensures !ending.FailsFirst? && Matching(old(Model()), u) != {} ==>
                exists dn :: dn in Matching(old(Model()), u) && Model() == Removed(old(Model()), dn, answer)
    {
      if ending.FailsFirst? {
        return Err(ExternalService);
      }
      var found := Matching(Model(), u);
      if found == {} {
        return Ok(());
      }
      var dn :| dn in found;
      LeaveAllGroups(dn, answer.refusing);
      if answer.accepted {
        entries := entries - {dn};
      }
      r := if ending.FailsLater? then Err(ExternalService) else Ok(());
    }
  }

  /**
   The interface's promise across two calls, exactly: the second answers with the first one's record if and only
   if the first one's tag was written, was there before, or the times agree; and then it changes nothing.
   */
  method OffboardTwice(server: DirectoryServer, u: UserId, first: Stamp, second: Stamp, a: Answer, b: Answer)
    returns (r1: Result<Deactivated, DirError>, r2: Result<Deactivated, DirError>)
    requires Valid(first) && |Matching(server.Model(), u)| <= 1
    modifies server
    ensures r1.Err? ==> r2 == r1 && server.Model() == old(server.Model())
    ensures r1.Ok? ==>
              exists dn ::
                && Matching(old(server.Model()), u) == {dn}
                && (r2 == r1 <==> a.accepted || IsOffboarded(old(server.entries)[dn]) || first == second)
                && (a.accepted || IsOffboarded(old(server.entries)[dn]) ==>
                      server.Model() == Offboarded(old(server.Model()), dn, first, a))
  {
    ghost var start := server.Model();
    r1 := server.DeactivateUser(u, first, a, Completes);
    ghost var middle := server.Model();
    if Matching(start, u) != {} {
      ghost var dn :| dn in Matching(start, u) && middle == Offboarded(start, dn, first, a);
      assert Matching(start, u) == {dn} by {
        assert |Matching(start, u) - {dn}| == 0;
      }
      OffboardOnce(start, dn, first, second, a, b);
      assert Matching(middle, u) == {dn};
    }
    r2 := server.DeactivateUser(u, second, b, Completes);
  }
}
