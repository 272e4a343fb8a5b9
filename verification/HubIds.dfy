/** Component ids of the hub: the host client families, the ids nobody may
    register, the ids a guest may not claim, and the command classes the router
    switches on. */
module HubIds {
  import opened Common

  type Id = string

  const EPHEMERAL_FAMILIES: seq<Id> := ["aegis-daemon-temp", "daemon-temp", "aegis-cli-internal"]
  const HOST_FAMILIES: seq<Id> := ["daemon", "daemon-internal", "channel-facilitator"] + EPHEMERAL_FAMILIES
  const FETCH_ID: Id := "hub-perm-fetch"
  const TEMP_PREFIX: Id := "daemon-temp-"

  /** `id` is `family` or `family-<suffix>` with a non-empty suffix. */
  predicate InFamily(id: Id, family: Id) {
    id == family || (family + "-" <= id && |id| > |family| + 1)
  }

  predicate IsEphemeralClient(id: Id) {
    exists f :: f in EPHEMERAL_FAMILIES && InFamily(id, f)
  }

  /** Starts like a host family other than "daemon" but is not a member of it. */
  predicate IsHostIdLookAlike(id: Id) {
    exists f :: f in HOST_FAMILIES && f != "daemon" && f <= id && !InFamily(id, f)
  }

  /** Ids refused at registration. The hub refuses vsock peers before this test,
      so only the transport-independent part of the rule can apply. */
  predicate Reserved(id: Id) {
    id == "hub" || id == FETCH_ID || FETCH_ID + "-" <= id || IsHostIdLookAlike(id)
  }

  /** Ids a guest bridge never relays, whatever VM it serves. */
  predicate HostOnly(id: Id) {
    id == "hub" || id == FETCH_ID || FETCH_ID + "-" <= id ||
    exists f :: f in HOST_FAMILIES && (id == f || f + "-" <= id)
  }

  predicate IsUnsolicited(command: string) {
    command in {"channel.turn", "channel.activity", "channel.member_notify", "channel.updated",
                "channel.relay_activity", "user.goal", "user.turn", "chat.message", "version",
                "get-version", "permission.snapshot", "permission.granted", "permission.revoked",
                "visibility.set"}
  }

  predicate IsOneWayReply(command: string) {
    !IsUnsolicited(command) &&
    (command in {"response", "ack", "channel.posted", "channel.data", "channel.created",
                 "channel.joined", "channel.archived", "channel.list", "channel.member_added",
                 "memory.context", "memory.response"}
     || HasSuffix(command, ".response"))
  }

  predicate IsOneWayPush(command: string) {
    command in {"channel.turn", "channel.activity", "channel.member_notify", "llm.usage.record"}
  }

  /** Decimal text of a counter, as `%d` prints it. */
  function Decimal(n: nat): (text: string)
    ensures |text| > 0
  {
    if n < 10 then [DIGITS[n]] else Decimal(n / 10) + [DIGITS[n % 10]]
  }

  const DIGITS: string := "0123456789"

  function TempId(n: nat): (id: Id) {
    TEMP_PREFIX + Decimal(n)
  }

  function FetchId(stamp: nat): (id: Id) {
    FETCH_ID + "-" + Decimal(stamp)
  }

  /** No two counters print alike. */
  lemma {:induction false} DecimalInjective(m: nat, n: nat)
    requires Decimal(m) == Decimal(n)
    ensures m == n
    decreases m + n
  {
    var a, b := Decimal(m), Decimal(n);
    assert a[|a| - 1] == DIGITS[m % 10] && b[|b| - 1] == DIGITS[n % 10];
    assert m % 10 == n % 10 by { DigitsInjective(m % 10, n % 10); }
    if m >= 10 || n >= 10 {
      assert |a| >= 2 <==> m >= 10;
      assert |b| >= 2 <==> n >= 10;
      assert Decimal(m / 10) == a[..|a| - 1];
      assert Decimal(n / 10) == b[..|b| - 1];
      DecimalInjective(m / 10, n / 10);
    }
  }

  lemma DigitsInjective(i: nat, j: nat)
    requires i < 10 && j < 10 && DIGITS[i] == DIGITS[j]
    ensures i == j
  {
  }

  /** Counter ids are pairwise distinct, belong to an ephemeral family, and are
      neither the daemon's own id nor an id that is reserved. */
  lemma TempIdsAreFresh(m: nat, n: nat)
    ensures TempId(m) == TempId(n) ==> m == n
    ensures TempId(m) != "daemon" && IsEphemeralClient(TempId(m)) && !Reserved(TempId(m))
  {
    var id := TempId(m);
    if id == TempId(n) {
      assert Decimal(m) == id[|TEMP_PREFIX|..] == Decimal(n);
      DecimalInjective(m, n);
    }
    assert id[0] == 'd' && id[7] == 't';
    assert InFamily(id, "daemon-temp") by { assert "daemon-temp" + "-" == TEMP_PREFIX; }
    assert EPHEMERAL_FAMILIES[1] == "daemon-temp";
    assert FETCH_ID[0] == 'h' && (FETCH_ID + "-")[0] == 'h';
    forall f | f in HOST_FAMILIES && f != "daemon" && f <= id ensures InFamily(id, f) {
      assert f[0] == id[0];
      if |f| > 7 { assert f[7] == id[7]; }
    }
  }

  /** A guest can never hold an id the hub serves without checking signatures,
      nor "daemon", nor an id one of the hub's own waiters is keyed by. */
  lemma GuestIdsExcludeHostClients(id: Id, stamp: nat)
    requires !HostOnly(id)
    ensures !IsEphemeralClient(id) && id != "daemon" && id != "hub" && id != FetchId(stamp)
  {
    assert forall f :: f in EPHEMERAL_FAMILIES ==> f in HOST_FAMILIES;
    assert HOST_FAMILIES[0] == "daemon" && "daemon" in HOST_FAMILIES;
  }

  // ------------------------------------------------------------ the ids by example

  /** `family`, or `family-x` for some `x`. */
  ghost predicate MemberOf(id: Id, family: Id) {
    id == family || exists x :: x != "" && id == family + "-" + x
  }

  lemma FamilyMembers(id: Id, family: Id)
    ensures InFamily(id, family) <==> MemberOf(id, family)
  {
    if InFamily(id, family) && id != family {
      var x := id[|family| + 1..];
      assert id == family + "-" + x;
    }
  }

  /** The ids served by the one-shot loop. */
  lemma EphemeralIds(id: Id)
    ensures IsEphemeralClient(id) <==>
            MemberOf(id, "aegis-daemon-temp") || MemberOf(id, "daemon-temp") || MemberOf(id, "aegis-cli-internal")
  {
    FamilyMembers(id, "aegis-daemon-temp");
    FamilyMembers(id, "daemon-temp");
    FamilyMembers(id, "aegis-cli-internal");
    assert EPHEMERAL_FAMILIES == ["aegis-daemon-temp", "daemon-temp", "aegis-cli-internal"];
    assert "aegis-daemon-temp" in EPHEMERAL_FAMILIES && "daemon-temp" in EPHEMERAL_FAMILIES;
    assert "aegis-cli-internal" in EPHEMERAL_FAMILIES;
  }

  /** Begins like `family` without being a member of it. */
  ghost predicate LooksLike(id: Id, family: Id) {
    family <= id && !MemberOf(id, family)
  }

  lemma HostFamilies(f: Id)
    ensures f in HOST_FAMILIES <==> f in {"daemon", "daemon-internal", "channel-facilitator",
                                          "aegis-daemon-temp", "daemon-temp", "aegis-cli-internal"}
  {
    assert HOST_FAMILIES == ["daemon", "daemon-internal", "channel-facilitator",
                             "aegis-daemon-temp", "daemon-temp", "aegis-cli-internal"];
  }

  /** The ids nobody may register. */
  lemma ReservedIds(id: Id)
    ensures Reserved(id) <==>
            || id == "hub" || id == "hub-perm-fetch" || "hub-perm-fetch-" <= id
            || LooksLike(id, "daemon-internal") || LooksLike(id, "channel-facilitator")
            || LooksLike(id, "aegis-daemon-temp") || LooksLike(id, "daemon-temp") || LooksLike(id, "aegis-cli-internal")
  {
    assert FETCH_ID + "-" == "hub-perm-fetch-";
    forall f ensures InFamily(id, f) <==> MemberOf(id, f) { FamilyMembers(id, f); }
    forall f ensures f in HOST_FAMILIES <==> f in {"daemon", "daemon-internal", "channel-facilitator",
                                                   "aegis-daemon-temp", "daemon-temp", "aegis-cli-internal"}
    {
      HostFamilies(f);
    }
  }

  /** The ids no guest may hold. */
  lemma HostOnlyIds(id: Id)
    ensures HostOnly(id) <==>
            || id == "hub" || id == "hub-perm-fetch" || "hub-perm-fetch-" <= id
            || id == "daemon" || "daemon-" <= id
            || id == "channel-facilitator" || "channel-facilitator-" <= id
            || id == "aegis-daemon-temp" || "aegis-daemon-temp-" <= id
            || id == "aegis-cli-internal" || "aegis-cli-internal-" <= id
  {
    assert FETCH_ID + "-" == "hub-perm-fetch-";
    forall f ensures f in HOST_FAMILIES <==> f in {"daemon", "daemon-internal", "channel-facilitator",
                                                   "aegis-daemon-temp", "daemon-temp", "aegis-cli-internal"}
    {
      HostFamilies(f);
    }
    assert "daemon" + "-" == "daemon-" && "channel-facilitator" + "-" == "channel-facilitator-";
    assert "aegis-daemon-temp" + "-" == "aegis-daemon-temp-" && "aegis-cli-internal" + "-" == "aegis-cli-internal-";
    assert "daemon-" <= "daemon-internal" && "daemon-" <= "daemon-temp";
    assert "daemon-" <= "daemon-internal" + "-" && "daemon-" <= "daemon-temp" + "-";
  }

  /** A counter is printed in decimal digits, without a leading zero, and reads back. */
  lemma {:induction false} DecimalReadsBack(n: nat)
    ensures ValueOf(Decimal(n)) == n && (n > 0 ==> Decimal(n)[0] != '0')
    ensures forall i :: 0 <= i < |Decimal(n)| ==> '0' <= Decimal(n)[i] <= '9'
  {
    assert forall d: nat :: d < 10 ==> DIGITS[d] as int == '0' as int + d;
    if n < 10 {
      assert Decimal(n)[..0] == "";
    } else {
      DecimalReadsBack(n / 10);
      assert Decimal(n)[..|Decimal(n)| - 1] == Decimal(n / 10);
    }
  }
}
