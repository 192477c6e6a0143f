/** The notification map object (`nixl_capi_notif_map_t`): for each remote
    agent that sent notifications, the payloads in arrival order. The map is
    read by position (agent names) and by agent name (payloads). */
module NotifMap {
  import opened CapiTypes

  type Blob = seq<byte>

  /** One agent's entry: its name and its notifications in arrival order. */
  datatype Entry = Entry(agent: string, notifs: seq<Blob>)

  /** The map, as its entries in the container's iteration order. */
  type Notifs = seq<Entry>

  /** A map holds each agent name at most once (a property of the container,
      which every map object keeps). */
  ghost predicate Keyed(m: Notifs)
  {
    forall i, j :: 0 <= i < j < |m| ==> m[i].agent != m[j].agent
  }

  /** `find`: the position of `name` in the map, or `None` (the end iterator). */
  function Find(m: Notifs, name: string): (r: Option<nat>)
    ensures r.Some? ==> r.value < |m| && m[r.value].agent == name
    ensures r.None? <==> forall i :: 0 <= i < |m| ==> m[i].agent != name
    ensures r.Some? ==> forall i :: 0 <= i < r.value ==> m[i].agent != name
  {
    if m == [] then None
    else if m[0].agent == name then Some(0)
    else
      var rest := Find(m[1..], name);
      if rest.None? then None else Some(rest.value + 1)
  }

  /** In a map without duplicate names, finding the name at a position gives
      that position back. */
  lemma FindIsPosition(m: Notifs, i: nat)
    requires Keyed(m) && i < |m|
    ensures Find(m, m[i].agent) == Some(i)
  {
  }

  /** `nixl_capi_notif_map_size`. */
  function Size(map_: Ptr<Notifs>, size: OutPtr): (r: Out<nat>)
    ensures map_.Null? || size.Null? ==> r == Out(ErrInvalidParam, None)
    ensures map_.Ptr? && size.Ptr? ==> r == Out(Success, Some(|map_.deref|))
  {
    if map_.Null? || size.Null? then Rejected() else Out(Success, Some(|map_.deref|))
  }

  /** `nixl_capi_notif_map_get_agent_at` as the binding writes it: advance a
      fresh iterator `index` steps, then refuse if that is the end. Advancing
      past the end is undefined behaviour, so the end check only catches
      `index == size`; `None` marks the inputs whose behaviour is undefined. */
  function GetAgentAtAsWritten(map_: Ptr<Notifs>, index: nat, agentName: OutPtr): (r: Option<Out<string>>)
    ensures r.None? <==> map_.Ptr? && agentName.Ptr? && index > |map_.deref|
    ensures r.Some? ==> r.value == GetAgentAt(map_, index, agentName)
  {
    if map_.Null? || agentName.Null? then Some(Rejected())
    else if index > |map_.deref| then None
    else if index == |map_.deref| then Some(Rejected())
    else Some(Out(Success, Some(map_.deref[index].agent)))
  }

  /** The end check lets an index one past the size through to an undefined
      `std::advance`. */
  lemma AgentAtPastEndUndefined(m: Notifs)
    ensures GetAgentAtAsWritten(Ptr(m), |m| + 1, Ptr(Opaque)).None?
    ensures GetAgentAt(Ptr(m), |m| + 1, Ptr(Opaque)) == Out(ErrInvalidParam, None)
  {
  }

  /** `nixl_capi_notif_map_get_agent_at` as evidently intended: every index
      at or past the size is refused, not only the one equal to it. */
  function GetAgentAt(map_: Ptr<Notifs>, index: nat, agentName: OutPtr): (r: Out<string>)
    ensures r.status == Success <==> map_.Ptr? && agentName.Ptr? && index < |map_.deref|
    ensures r.status == Success ==> r.written == Some(map_.deref[index].agent)
    ensures r.status != Success ==> r == Out(ErrInvalidParam, None)
  {
    if map_.Null? || agentName.Null? || index >= |map_.deref| then Rejected()
    else Out(Success, Some(map_.deref[index].agent))
  }

  /** `nixl_capi_notif_map_get_notifs_size`: the number of notifications from
      the named agent; an unknown agent is an invalid parameter. */
  function GetNotifsSize(map_: Ptr<Notifs>, agentName: Ptr<string>, size: OutPtr): (r: Out<nat>)
    requires map_.Ptr? ==> Keyed(map_.deref)
    ensures map_.Null? || agentName.Null? || size.Null? ==> r == Out(ErrInvalidParam, None)
    ensures r.status == Success <==>
              map_.Ptr? && agentName.Ptr? && size.Ptr? &&
              exists i :: 0 <= i < |map_.deref| && map_.deref[i].agent == agentName.deref
    ensures r.status == Success ==>
              exists i :: 0 <= i < |map_.deref| && map_.deref[i].agent == agentName.deref &&
                          r.written == Some(|map_.deref[i].notifs|)
    ensures r.status != Success ==> r == Out(ErrInvalidParam, None)
  {
    if map_.Null? || agentName.Null? || size.Null? then Rejected()
    else
      var at := Find(map_.deref, agentName.deref);
      if at.None? then Rejected()
      else Out(Success, Some(|map_.deref[at.value].notifs|))
  }

  /** `nixl_capi_notif_map_get_notif`: the `index`-th notification of the
      named agent (its bytes and length); an unknown agent or an index at or
      past that agent's count is an invalid parameter. */
  function GetNotif(map_: Ptr<Notifs>, agentName: Ptr<string>, index: nat, data: OutPtr, len: OutPtr): (r: Out<Blob>)
    requires map_.Ptr? ==> Keyed(map_.deref)
    ensures map_.Null? || agentName.Null? || data.Null? || len.Null? ==> r == Out(ErrInvalidParam, None)
    ensures r.status == Success <==>
              map_.Ptr? && agentName.Ptr? && data.Ptr? && len.Ptr? &&
              exists i :: 0 <= i < |map_.deref| && map_.deref[i].agent == agentName.deref &&
                          index < |map_.deref[i].notifs|
    ensures r.status == Success ==>
              exists i :: 0 <= i < |map_.deref| && map_.deref[i].agent == agentName.deref &&
                          index < |map_.deref[i].notifs| && r.written == Some(map_.deref[i].notifs[index])
    ensures r.status != Success ==> r == Out(ErrInvalidParam, None)
  {
    if map_.Null? || agentName.Null? || data.Null? || len.Null? then Rejected()
    else
      var at := Find(map_.deref, agentName.deref);
      if at.None? || index >= |map_.deref[at.value].notifs| then Rejected()
      else Out(Success, Some(map_.deref[at.value].notifs[index]))
  }

  /** Reading the map the way a caller drains it: for every position below
      the size, the agent name read there has a notification count, and every
      index below that count reads back exactly that agent's notification, in
      arrival order. */
  lemma PositionalReadsAgree(m: Notifs, i: nat, k: nat)
    requires Keyed(m) && i < |m|
    ensures var name := GetAgentAt(Ptr(m), i, Ptr(Opaque)).written;
            && name == Some(m[i].agent)
            && GetNotifsSize(Ptr(m), Ptr(name.value), Ptr(Opaque)).written == Some(|m[i].notifs|)
            && (k < |m[i].notifs| <==> GetNotif(Ptr(m), Ptr(name.value), k, Ptr(Opaque), Ptr(Opaque)).status == Success)
            && (k < |m[i].notifs| ==>
                  GetNotif(Ptr(m), Ptr(name.value), k, Ptr(Opaque), Ptr(Opaque)).written == Some(m[i].notifs[k]))
  {
    FindIsPosition(m, i);
  }
}
