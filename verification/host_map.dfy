/** The key/value host map kept by `jujubigdata.utils`. Its code is not part of
    this model: it is taken to be a plain map from host key to address with
    `update_kv_hosts` as an overriding union, `remove_kv_hosts` as key removal
    that ignores absent keys, `get_kv_hosts` as a snapshot and
    `initialize_kv_host` as recording this unit's own entry. */
module HostMap {

  type Hosts = map<string, string>

  /** `update_kv_hosts(m)`: every entry of `m` is now present with `m`'s address;
      other entries are untouched. */
  function Update(kv: Hosts, m: Hosts): (r: Hosts)
    ensures r.Keys == kv.Keys + m.Keys
    ensures forall k :: k in m ==> r[k] == m[k]
    ensures forall k :: k in kv && k !in m ==> r[k] == kv[k]
  {
    kv + m
  }

  /** `remove_kv_hosts(names)`: exactly the named keys are gone; surviving
      entries keep their addresses. */
  function Remove(kv: Hosts, names: seq<string>): (r: Hosts)
    ensures r.Keys == kv.Keys - (set n | n in names)
    ensures forall k :: k in r ==> r[k] == kv[k]
  {
    kv - (set n | n in names)
  }

  /** `initialize_kv_host()`: this unit's own entry is recorded. */
  function Initialize(kv: Hosts, unitHost: string, unitAddress: string): (r: Hosts)
    ensures unitHost in r && r[unitHost] == unitAddress
    ensures r.Keys == kv.Keys + {unitHost}
    ensures forall k :: k in kv && k != unitHost ==> r[k] == kv[k]
  {
    kv[unitHost := unitAddress]
  }

  /** Recording this unit's entry a second time changes nothing. */
  lemma InitializeIdempotent(kv: Hosts, unitHost: string, unitAddress: string)
    ensures Initialize(Initialize(kv, unitHost, unitAddress), unitHost, unitAddress)
         == Initialize(kv, unitHost, unitAddress)
  {
  }

  /** Updating twice with the same entries is the same as updating once. */
  lemma UpdateIdempotent(kv: Hosts, m: Hosts)
    ensures Update(Update(kv, m), m) == Update(kv, m)
  {
  }

  /** Removing names that are not in the map leaves it as it was. */
  lemma RemoveAbsent(kv: Hosts, names: seq<string>)
    requires forall n :: n in names ==> n !in kv
    ensures Remove(kv, names) == kv
  {
    assert Remove(kv, names).Keys == kv.Keys;
  }

  /** Removing the same names a second time changes nothing. */
  lemma RemoveIdempotent(kv: Hosts, names: seq<string>)
    ensures Remove(Remove(kv, names), names) == Remove(kv, names)
  {
    RemoveAbsent(Remove(kv, names), names);
  }
}
