/** The per-session id sets that broker (`sessions`) and dealer (`callees`) keep. */
module SessionIndex {
  import opened Wamp

  type Index = map<Session, set<Id>>

  function Entries(index: Index, s: Session): set<Id> {
    if s in index then index[s] else {}
  }

  /** Every owned id is in its owner's set. A set may hold stale ids, which nobody owns,
      but never an id another session owns; no empty set is kept. */
  ghost predicate Indexed(index: Index, owner: map<Id, Session>, used: set<Id>) {
    && (forall id :: id in owner ==> id in Entries(index, owner[id]))
    && (forall s :: s in index ==> index[s] != {})
    && (forall s, id :: id in Entries(index, s) ==> id in used && (id in owner ==> owner[id] == s))
  }

  /** No stale ids: a session's set is exactly the set of the ids it owns. */
  ghost predicate NoStale(index: Index, owner: map<Id, Session>) {
    forall s, id :: id in Entries(index, s) ==> id in owner
  }

  function AddEntry(index: Index, s: Session, id: Id): Index {
    index[s := Entries(index, s) + {id}]
  }

  function RemoveEntry(index: Index, s: Session, id: Id): Index {
    if s !in index then index
    else
      var rest := index[s] - {id};
      if rest == {} then index - {s} else index[s := rest]
  }

  /** What the owners are once `s` owns nothing. */
  function Disowned(owner: map<Id, Session>, s: Session): map<Id, Session> {
    map id | id in owner && owner[id] != s :: owner[id]
  }

  lemma AddEntryIndexed(index: Index, owner: map<Id, Session>, used: set<Id>, s: Session, id: Id)
    requires Indexed(index, owner, used) && id !in used
    ensures id !in owner
    ensures Indexed(AddEntry(index, s, id), owner[id := s], used + {id})
    ensures NoStale(AddEntry(index, s, id), owner[id := s]) <==> NoStale(index, owner)
  {
    forall t, i ensures i in Entries(AddEntry(index, s, id), t) <==> i in Entries(index, t) || (t == s && i == id) {}
  }

  /** Exactness is lost precisely when another session owned the removed id. */
  lemma RemoveEntryIndexed(index: Index, owner: map<Id, Session>, used: set<Id>, s: Session, id: Id)
    requires Indexed(index, owner, used) && id in owner
    ensures Indexed(RemoveEntry(index, s, id), owner - {id}, used)
    ensures NoStale(index, owner) ==> (NoStale(RemoveEntry(index, s, id), owner - {id}) <==> owner[id] == s)
  {
    var after := RemoveEntry(index, s, id);
    forall t, i ensures i in Entries(after, t) <==> i in Entries(index, t) && !(t == s && i == id) {}
    assert id in Entries(index, owner[id]);
  }

  /** Removing an id nobody owns leaves a good index. */
  lemma RemoveStaleIndexed(index: Index, owner: map<Id, Session>, used: set<Id>, s: Session, id: Id)
    requires Indexed(index, owner, used) && id !in owner
    ensures Indexed(RemoveEntry(index, s, id), owner, used)
    ensures NoStale(index, owner) ==> NoStale(RemoveEntry(index, s, id), owner)
  {
    var after := RemoveEntry(index, s, id);
    forall t, i ensures i in Entries(after, t) <==> i in Entries(index, t) && !(t == s && i == id) {}
  }

  /** A session's set, stale ids included, decides what removing the session leaves. */
  lemma DropSessionIndexed(index: Index, owner: map<Id, Session>, used: set<Id>, s: Session)
    requires Indexed(index, owner, used)
    ensures owner - Entries(index, s) == Disowned(owner, s)
    ensures Indexed(index - {s}, Disowned(owner, s), used)
    ensures NoStale(index, owner) ==> NoStale(index - {s}, Disowned(owner, s))
  {
    assert forall t, i :: i in Entries(index - {s}, t) ==> i in Entries(index, t) && t != s;
  }
}
