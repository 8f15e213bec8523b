/** The provider clients of each rail, in order of registration. */
module Registry {
  import opened Wrappers

  type ClientId = nat

  datatype Meta = Meta(provider: string, isActive: bool, weight: int)

  datatype Entry = Entry(client: ClientId, meta: Meta)

  type Rails = map<string, seq<Entry>>

  function EntriesOf(rails: Rails, rail: string): seq<Entry> {
    if rail in rails then rails[rail] else []
  }

  function Active(entries: seq<Entry>): seq<Entry> {
    if entries == [] then []
    else Active(entries[..|entries| - 1]) +
         if entries[|entries| - 1].meta.isActive then [entries[|entries| - 1]] else []
  }

  // What is kept are exactly the active entries, in order; `at` gives their places.
  ghost predicate KeepsActive(entries: seq<Entry>, kept: seq<Entry>, at: seq<nat>) {
    && |at| == |kept|
    && (forall k, l :: 0 <= k < l < |at| ==> at[k] < at[l])
    && (forall k :: 0 <= k < |at| ==> at[k] < |entries| && entries[at[k]] == kept[k])
    && (forall i :: 0 <= i < |entries| ==> (i in at <==> entries[i].meta.isActive))
  }

  lemma KeepsOneMore(entries: seq<Entry>, kept: seq<Entry>, at: seq<nat>, e: Entry)
    requires KeepsActive(entries, kept, at)
    ensures if e.meta.isActive then KeepsActive(entries + [e], kept + [e], at + [|entries|])
            else KeepsActive(entries + [e], kept, at)
  {
  }

  /** The active entries of a list are kept, each as often and in the order in which it was registered. */
  lemma {:induction false} ActivesInOrder(entries: seq<Entry>) returns (at: seq<nat>)
    ensures KeepsActive(entries, Active(entries), at)
    decreases |entries|
  {
    at := [];
    if entries != [] {
      hide KeepsActive;
      var (init, last) := (entries[..|entries| - 1], entries[|entries| - 1]);
      at := ActivesInOrder(init);
      KeepsOneMore(init, Active(init), at, last);
      assert entries == init + [last];
      if last.meta.isActive { at := at + [|init|]; }
    }
  }

  lemma {:induction false} ActivesAreEntries(entries: seq<Entry>, e: Entry) returns (i: nat)
    requires e in Active(entries)
    ensures i < |entries| && entries[i] == e
    decreases |entries|
  {
    if entries[|entries| - 1] == e {
      i := |entries| - 1;
    } else {
      i := ActivesAreEntries(entries[..|entries| - 1], e);
    }
  }

  predicate Named(e: Entry, provider: string) {
    e.meta.provider == provider
  }

  /** The index of the first entry of that name, or the length. */
  function FirstNamed(entries: seq<Entry>, provider: string): (i: nat)
    ensures i <= |entries|
    ensures i < |entries| ==> Named(entries[i], provider)
    ensures forall j :: 0 <= j < i ==> !Named(entries[j], provider)
  {
    if entries == [] || Named(entries[0], provider) then 0 else 1 + FirstNamed(entries[1..], provider)
  }

  /** A change to the registry at run time. */
  datatype Change =
    | Register(rail: string, entry: Entry)
    | Toggle(rail: string, provider: string, active: bool)

  function Changed(rails: Rails, c: Change): Rails {
    match c
    case Register(rail, entry) => rails[rail := EntriesOf(rails, rail) + [entry]]
    case Toggle(rail, provider, active) =>
      var entries := EntriesOf(rails, rail);
      var i := FirstNamed(entries, provider);
      if i == |entries| then rails
      else rails[rail := entries[i := entries[i].(meta := entries[i].meta.(isActive := active))]]
  }

  function ChangedAll(rails: Rails, cs: seq<Change>): Rails {
    if cs == [] then rails else Changed(ChangedAll(rails, cs[..|cs| - 1]), cs[|cs| - 1])
  }

  /** Any number of changes lead from rails to rails'. */
  ghost predicate Evolves(rails: Rails, rails': Rails) {
    exists cs :: rails' == ChangedAll(rails, cs)
  }

  lemma EvolvesToItself(rails: Rails)
    ensures Evolves(rails, rails)
  {
    assert ChangedAll(rails, []) == rails;
  }

  lemma {:induction false} ChangedAllConcat(rails: Rails, cs: seq<Change>, cs': seq<Change>)
    ensures ChangedAll(rails, cs + cs') == ChangedAll(ChangedAll(rails, cs), cs')
  {
    if cs' == [] {
      assert cs + cs' == cs;
    } else {
      var init := cs'[..|cs'| - 1];
      assert (cs + cs')[..|cs + cs'| - 1] == cs + init;
      ChangedAllConcat(rails, cs, init);
    }
  }

  lemma EvolvesOn(rails: Rails, rails': Rails, rails'': Rails)
    requires Evolves(rails, rails') && Evolves(rails', rails'')
    ensures Evolves(rails, rails'')
  {
    var cs :| rails' == ChangedAll(rails, cs);
    var cs' :| rails'' == ChangedAll(rails', cs');
    ChangedAllConcat(rails, cs, cs');
  }

  /** A registration comes last on its rail, behind what was there; the other rails stay as they were. */
  lemma RegistrationComesLast(rails: Rails, rail: string, entry: Entry)
    ensures var now := Changed(rails, Register(rail, entry));
      && EntriesOf(now, rail) == EntriesOf(rails, rail) + [entry]
      && forall other :: other != rail ==> EntriesOf(now, other) == EntriesOf(rails, other)
  {
  }

  /** A toggle gives the first entry of that name on the rail the flag asked for; everything else stays. */
  lemma ToggleTakesEffect(rails: Rails, rail: string, provider: string, active: bool, i: nat)
    requires i < |EntriesOf(rails, rail)| && EntriesOf(rails, rail)[i].meta.provider == provider
    requires forall j :: 0 <= j < i ==> EntriesOf(rails, rail)[j].meta.provider != provider
    ensures var (was, now) := (EntriesOf(rails, rail), EntriesOf(Changed(rails, Toggle(rail, provider, active)), rail));
      && |now| == |was| && now[i] == Entry(was[i].client, Meta(provider, active, was[i].meta.weight))
      && (forall j :: 0 <= j < |was| && j != i ==> now[j] == was[j])
      && forall other :: other != rail ==>
           EntriesOf(Changed(rails, Toggle(rail, provider, active)), other) == EntriesOf(rails, other)
  {
    assert FirstNamed(EntriesOf(rails, rail), provider) == i;
  }

  /** What a lookup by name can return: the maps are walked in no particular order, each list in order. */
  ghost predicate CanReturn(rails: Rails, provider: string, r: Option<ClientId>) {
    match r
    case Some(client) =>
      exists rail :: rail in rails && FirstNamed(rails[rail], provider) < |rails[rail]| &&
        rails[rail][FirstNamed(rails[rail], provider)].client == client
    case None => forall rail :: rail in rails ==> FirstNamed(rails[rail], provider) == |rails[rail]|
  }

  /** No two entries, on one rail or on two, share a provider name. */
  ghost predicate UniqueNames(rails: Rails) {
    forall r, i, r', i' | r in rails && r' in rails && 0 <= i < |rails[r]| && 0 <= i' < |rails[r']| ::
      rails[r][i].meta.provider == rails[r'][i'].meta.provider ==> r == r' && i == i'
  }

  /** An entry keeps its place, its client and its name through registrations and toggles. */
  lemma {:induction false} EntriesStay(rails: Rails, cs: seq<Change>, rail: string, i: nat)
    requires rail in rails && i < |rails[rail]|
    ensures var rails' := ChangedAll(rails, cs);
      && rail in rails' && i < |rails'[rail]|
      && rails'[rail][i].client == rails[rail][i].client
      && rails'[rail][i].meta.provider == rails[rail][i].meta.provider
  {
    if cs != [] { EntriesStay(rails, cs[..|cs| - 1], rail, i); }
  }

  /** The client that a payout was sent through is the one that a later lookup of its name reaches, in every
      order of the walk and after any registrations and toggles, as long as names stay unique. */
  lemma LookupReachesSender(rails: Rails, cs: seq<Change>, rail: string, i: nat, r: Option<ClientId>)
    requires rail in rails && i < |rails[rail]|
    requires UniqueNames(ChangedAll(rails, cs))
    requires CanReturn(ChangedAll(rails, cs), rails[rail][i].meta.provider, r)
    ensures r == Some(rails[rail][i].client)
  {
    EntriesStay(rails, cs, rail, i);
    var rails': Rails := ChangedAll(rails, cs);
    assert rails'[rail][i].meta.provider == rails[rail][i].meta.provider;
  }

  // The first entry of that name on each rail, where there is one, is this client's.
  predicate FirstIsAlways(rails: Rails, provider: string, client: ClientId) {
    forall rail :: rail in rails && FirstNamed(rails[rail], provider) < |rails[rail]| ==>
      rails[rail][FirstNamed(rails[rail], provider)].client == client
  }

  /** Exactly when the lookup reaches the sender in every order of the walk: when on every rail the first entry of
      its name, where there is one, is the sender's client. */
  lemma LookupReachesSenderIff(rails: Rails, cs: seq<Change>, rail: string, i: nat)
    requires rail in rails && i < |rails[rail]|
    ensures var (now, sender) := (ChangedAll(rails, cs), rails[rail][i]);
      (forall r :: CanReturn(now, sender.meta.provider, r) ==> r == Some(sender.client)) <==>
      FirstIsAlways(now, sender.meta.provider, sender.client)
  {
    var (now: Rails, sender) := (ChangedAll(rails, cs), rails[rail][i]);
    EntriesStay(rails, cs, rail, i);
    assert Named(now[rail][i], sender.meta.provider);
    if !FirstIsAlways(now, sender.meta.provider, sender.client) {
      var other :| other in now && FirstNamed(now[other], sender.meta.provider) < |now[other]| &&
        now[other][FirstNamed(now[other], sender.meta.provider)].client != sender.client;
      var first := now[other][FirstNamed(now[other], sender.meta.provider)];
      assert CanReturn(now, sender.meta.provider, Some(first.client));
    }
  }

  /** Without unique names two walks can disagree. */
  lemma SharedNameIsAmbiguous()
    ensures var e := (client: ClientId) => Entry(client, Meta("acme", true, 0));
      var rails := map["card" := [e(1)], "crypto" := [e(2)]];
      CanReturn(rails, "acme", Some(1)) && CanReturn(rails, "acme", Some(2))
  {
    var e := (client: ClientId) => Entry(client, Meta("acme", true, 0));
    var rails := map["card" := [e(1)], "crypto" := [e(2)]];
    assert FirstNamed(rails["card"], "acme") == 0 && FirstNamed(rails["crypto"], "acme") == 0;
  }

  class Directory {
    var rails: Rails

    constructor ()
      ensures rails == map[]
    {
      rails := map[];
    }

    method RegisterWithMeta(rail: string, client: ClientId, meta: Meta)
      modifies this
      ensures rails == Changed(old(rails), Register(rail, Entry(client, meta)))
    {
      var entry := Entry(client, meta);
      rails := rails[rail := (if rail in rails then rails[rail] else []) + [entry]];
    }

    method GetProviders(rail: string) returns (result: seq<Entry>)
      ensures result == Active(EntriesOf(rails, rail))
    {
      if rail !in rails { return []; }
      var entries := rails[rail];
      result := [];
      for i := 0 to |entries|
        invariant result == Active(entries[..i])
      {
        assert entries[..i + 1][..i] == entries[..i];
        if entries[i].meta.isActive { result := result + [entries[i]]; }
      }
      assert entries[..|entries|] == entries;
    }

    method SetActive(rail: string, provider: string, active: bool) returns (found: bool)
      modifies this
      ensures rails == Changed(old(rails), Toggle(rail, provider, active))
      ensures found <==> exists e :: e in EntriesOf(old(rails), rail) && Named(e, provider)
    {
      if rail !in rails { return false; }
      var entries := rails[rail];
      for i := 0 to |entries|
        invariant rails == old(rails)
        invariant forall j :: 0 <= j < i ==> !Named(entries[j], provider)
      {
        if entries[i].meta.provider == provider {
          assert i == FirstNamed(entries, provider) && entries[i] in entries;
          rails := rails[rail := entries[i := entries[i].(meta := entries[i].meta.(isActive := active))]];
          return true;
        }
      }
      return false;
    }

    method GetByProvider(provider: string) returns (r: Option<ClientId>)
      ensures CanReturn(rails, provider, r)
    {
      var left := rails.Keys;
      while left != {}
        invariant left <= rails.Keys
        invariant forall rail :: rail in rails.Keys - left ==> FirstNamed(rails[rail], provider) == |rails[rail]|
        decreases |left|
      {
        var rail :| rail in left;
        left := left - {rail};
        var entries := rails[rail];
        for i := 0 to |entries|
          invariant forall j :: 0 <= j < i ==> !Named(entries[j], provider)
        {
          if entries[i].meta.provider == provider {
            assert i == FirstNamed(entries, provider);
            return Some(entries[i].client);
          }
        }
      }
      return None;
    }

    // Registrations and toggles by others.
    method Others()
      modifies this
      ensures Evolves(old(rails), rails)
    {
      EvolvesToItself(rails);
    }
  }
}
