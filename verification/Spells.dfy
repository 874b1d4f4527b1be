/** The spells the seed took out of the trainers' hands. */
module Spells {
  datatype SpellItem = SpellItem(itemId: int, spellId: nat, reqLevel: nat, taughtSpells: seq<nat>)

  datatype Registry = Registry(byItemId: map<int, SpellItem>, bySpellId: map<nat, SpellItem>, taught: set<nat>)

  /** One entry of the slot data: an item's spell, or a riding rank. */
  datatype Entry = ItemSpell(item: SpellItem) | TrainerSpell(spellId: nat, reqLevel: nat)

  const EMPTY := Registry(map[], map[], {})

  function Members(s: seq<nat>): set<nat> {
    set x | x in s
  }

  function SpellOf(e: Entry): nat {
    if e.ItemSpell? then e.item.spellId else e.spellId
  }

  function TaughtBy(e: Entry): seq<nat> {
    if e.ItemSpell? then e.item.taughtSpells else []
  }

  function Kept(e: Entry): SpellItem {
    if e.ItemSpell? then e.item else SpellItem(0, e.spellId, e.reqLevel, [])
  }

  function Add(r: Registry, e: Entry): Registry {
    Registry(if e.ItemSpell? then r.byItemId[e.item.itemId := e.item] else r.byItemId,
             r.bySpellId[SpellOf(e) := Kept(e)],
             r.taught + Members(TaughtBy(e)))
  }

  /** Reading the slot data's spells, in order. */
  function Read(r: Registry, data: seq<Entry>): Registry {
    if |data| == 0 then r else Add(Read(r, data[..|data| - 1]), data[|data| - 1])
  }

  predicate IsRandomized(r: Registry, spell: nat) {
    spell in r.bySpellId || spell in r.taught
  }

  predicate HasEntryOfItsOwn(r: Registry, spell: nat) {
    spell in r.bySpellId
  }

  class Container {
    var byItemId: map<int, SpellItem>
    var bySpellId: map<nat, SpellItem>
    var taught: set<nat>

    ghost function Abs(): Registry
      reads this
    {
      Registry(byItemId, bySpellId, taught)
    }

    constructor ()
      ensures Abs() == EMPTY
    {
      byItemId, bySpellId, taught := map[], map[], {};
    }

    method AddItem(itemId: int, spellId: nat, reqLevel: nat, taughtSpells: seq<nat>)
      modifies this
      ensures Abs() == Add(old(Abs()), ItemSpell(SpellItem(itemId, spellId, reqLevel, taughtSpells)))
    {
      for i := 0 to |taughtSpells|
        invariant Abs() == old(Abs()).(taught := old(taught) + Members(taughtSpells[..i]))
      {
        assert taughtSpells[..i + 1] == taughtSpells[..i] + [taughtSpells[i]];
        taught := taught + {taughtSpells[i]};
      }
      assert taughtSpells[..|taughtSpells|] == taughtSpells;
      var item := SpellItem(itemId, spellId, reqLevel, taughtSpells);
      byItemId := byItemId[itemId := item];
      bySpellId := bySpellId[spellId := item];
    }

    method AddTrainerSpell(spellId: nat, reqLevel: nat)
      modifies this
      ensures Abs() == Add(old(Abs()), TrainerSpell(spellId, reqLevel))
    {
      bySpellId := bySpellId[spellId := SpellItem(0, spellId, reqLevel, [])];
    }
  }

  /** Everything the registry's entries name: what the sweep goes over. */
  ghost predicate Listed(r: Registry, spell: nat) {
    spell in r.bySpellId || exists k :: k in r.bySpellId && spell in r.bySpellId[k].taughtSpells
  }

  /** Nothing was left without an entry that lists it. */
  ghost predicate Coherent(r: Registry) {
    forall spell :: spell in r.taught ==> Listed(r, spell)
  }

  /** A spell registered twice is registered with the same list both times. */
  ghost predicate Agreeing(data: seq<Entry>) {
    forall i, j :: 0 <= i < j < |data| && SpellOf(data[i]) == SpellOf(data[j]) ==>
      TaughtBy(data[i]) == TaughtBy(data[j])
  }

  lemma {:induction false} EntryFrom(data: seq<Entry>, spell: nat) returns (i: nat)
    requires spell in Read(EMPTY, data).bySpellId
    ensures i < |data| && SpellOf(data[i]) == spell && Read(EMPTY, data).bySpellId[spell] == Kept(data[i])
  {
    var n := |data| - 1;
    if SpellOf(data[n]) == spell {
      i := n;
    } else {
      i := EntryFrom(data[..n], spell);
    }
  }

  lemma AddKeepsListed(r: Registry, e: Entry, spell: nat)
    requires Listed(r, spell)
    requires SpellOf(e) in r.bySpellId ==> r.bySpellId[SpellOf(e)].taughtSpells == TaughtBy(e)
    ensures Listed(Add(r, e), spell)
  {
    if spell !in r.bySpellId {
      var k :| k in r.bySpellId && spell in r.bySpellId[k].taughtSpells;
      assert k in Add(r, e).bySpellId && spell in Add(r, e).bySpellId[k].taughtSpells;
    }
  }

  /** Slot data whose repeated registrations agree leaves nothing unlisted. */
  lemma {:induction false} AgreeingIsCoherent(data: seq<Entry>)
    requires Agreeing(data)
    ensures Coherent(Read(EMPTY, data))
  {
    hide Listed;
    if |data| > 0 {
      var n := |data| - 1;
      var was, e := Read(EMPTY, data[..n]), data[n];
      AgreeingIsCoherent(data[..n]);
      if SpellOf(e) in was.bySpellId {
        var i := EntryFrom(data[..n], SpellOf(e));
        assert data[..n][i] == data[i];
        assert was.bySpellId[SpellOf(e)].taughtSpells == TaughtBy(e);
      }
      forall spell | spell in Add(was, e).taught ensures Listed(Add(was, e), spell) {
        if spell in was.taught {
          AddKeepsListed(was, e, spell);
        } else {
          JustListed(was, e, spell);
        }
      }
    }
  }

  lemma JustListed(r: Registry, e: Entry, spell: nat)
    requires spell in TaughtBy(e)
    ensures Listed(Add(r, e), spell)
  {
    assert spell in Add(r, e).bySpellId[SpellOf(e)].taughtSpells;
  }

  function Merge(a: Registry, b: Registry): Registry {
    Registry(a.byItemId + b.byItemId, a.bySpellId + b.bySpellId, a.taught + b.taught)
  }

  lemma AddMerges(a: Registry, b: Registry, e: Entry)
    ensures Add(Merge(a, b), e) == Merge(a, Add(b, e))
  {
    if e.ItemSpell? {
      assert (a.byItemId + b.byItemId)[e.item.itemId := e.item] == a.byItemId + b.byItemId[e.item.itemId := e.item];
    }
    assert (a.bySpellId + b.bySpellId)[SpellOf(e) := Kept(e)] == a.bySpellId + b.bySpellId[SpellOf(e) := Kept(e)];
  }

  lemma {:induction false} ReadMerges(r: Registry, data: seq<Entry>)
    ensures Read(r, data) == Merge(r, Read(EMPTY, data))
  {
    hide Add;
    if |data| == 0 {
      assert Merge(r, EMPTY) == r;
    } else {
      ReadMerges(r, data[..|data| - 1]);
      AddMerges(r, Read(EMPTY, data[..|data| - 1]), data[|data| - 1]);
    }
  }

  /** The slot data read again, as on every connection, changes nothing. */
  lemma ReadAgain(data: seq<Entry>)
    ensures Read(Read(EMPTY, data), data) == Read(EMPTY, data)
  {
    ReadMerges(Read(EMPTY, data), data);
  }
}
