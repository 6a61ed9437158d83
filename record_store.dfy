/** The browser-side idea and session store (lib/utils/localStorage.ts).
    Ideas are kept in one list keyed by `id`, brainstorm sessions in another
    keyed by `ideaId`. Saving is an upsert at the first index with the key,
    lookup returns the first match, deletion filters every match out. The
    JSON round-trip through localStorage is abstracted: each storage slot
    holds the list itself, or nothing when the key has never been written. */
module RecordStore {
  import opened Wrappers
  import opened Conversation

  datatype Idea = Idea(id: string, title: string, description: string,
                       category: Option<string>, createdAt: string)

  datatype Session = Session(ideaId: string, messages: seq<Message>,
                             outline: Option<string>)

  function IdeaKey(i: Idea): string { i.id }
  function SessionKey(s: Session): string { s.ideaId }

  // ---------------------------------------------------------------------
  // The list operations, generic in the record type and its key.

  /** `Array.prototype.findIndex` with a key comparison. */
  function FindIndex<T>(s: seq<T>, key: T -> string, k: string): (r: int)
    ensures -1 <= r < |s|
    ensures r >= 0 ==> key(s[r]) == k && forall j :: 0 <= j < r ==> key(s[j]) != k
    ensures r < 0 <==> forall j :: 0 <= j < |s| ==> key(s[j]) != k
  {
    if |s| == 0 then -1
    else if key(s[0]) == k then 0
    else
      var i := FindIndex(s[1..], key, k);
      if i < 0 then -1 else i + 1
  }

  /** `Array.prototype.find` with a key comparison, `undefined` as None. */
  function Find<T>(s: seq<T>, key: T -> string, k: string): (r: Option<T>)
    ensures r.None? <==> forall j :: 0 <= j < |s| ==> key(s[j]) != k
    ensures r.Some? ==> exists j :: 0 <= j < |s| && s[j] == r.value && key(s[j]) == k
                                     && forall j' :: 0 <= j' < j ==> key(s[j']) != k
  {
    var i := FindIndex(s, key, k);
    if i < 0 then None else Some(s[i])
  }

  /** The list a save writes back: the record replaces the first entry with
      its key, or is appended when there is none. */
  function Upsert<T>(s: seq<T>, key: T -> string, x: T): (r: seq<T>)
    ensures (exists j :: 0 <= j < |s| && key(s[j]) == key(x)) ==>
              |r| == |s| && exists i :: 0 <= i < |s| && key(s[i]) == key(x) && r == s[i := x]
                                        && forall j :: 0 <= j < i ==> key(s[j]) != key(x)
    ensures (forall j :: 0 <= j < |s| ==> key(s[j]) != key(x)) ==> r == s + [x]
  {
    var i := FindIndex(s, key, key(x));
    if i >= 0 then s[i := x] else s + [x]
  }

  /** `Array.prototype.filter` keeping the entries whose key differs. */
  function Remove<T>(s: seq<T>, key: T -> string, k: string): (r: seq<T>)
    ensures |r| <= |s|
    ensures forall j :: 0 <= j < |r| ==> key(r[j]) != k
    ensures forall j :: 0 <= j < |r| ==> r[j] in s
    ensures forall j :: 0 <= j < |s| && key(s[j]) != k ==> s[j] in r
  {
    if |s| == 0 then []
    else
      assert s == [s[0]] + s[1..];
      (if key(s[0]) == k then [] else [s[0]]) + Remove(s[1..], key, k)
  }

  ghost predicate UniqueKeys<T>(s: seq<T>, key: T -> string) {
    forall i, j :: 0 <= i < j < |s| ==> key(s[i]) != key(s[j])
  }

  /** Reading back the key just saved gives the saved record. */
  lemma UpsertThenFind<T>(s: seq<T>, key: T -> string, x: T)
    ensures Find(Upsert(s, key, x), key, key(x)) == Some(x)
  {
    var i := FindIndex(s, key, key(x));
    var r := Upsert(s, key, x);
    if i >= 0 {
      assert r[i] == x;
      assert forall j :: 0 <= j < i ==> r[j] == s[j];
      assert FindIndex(r, key, key(x)) == i;
    } else {
      assert r[|s|] == x;
      assert FindIndex(r, key, key(x)) == |s|;
    }
  }

  /** A save changes no entry other than the one at the index it reports,
      and keeps the order of everything else. */
  lemma UpsertKeepsOthers<T>(s: seq<T>, key: T -> string, x: T)
    ensures var r := Upsert(s, key, x);
            |s| <= |r| <= |s| + 1 &&
            forall j :: 0 <= j < |s| && r[j] != s[j] ==> key(s[j]) == key(x) && r[j] == x
  {
  }

  /** Saving keeps keys unique: a key already present is replaced in place,
      a new one is added once. */
  lemma UpsertKeepsUnique<T>(s: seq<T>, key: T -> string, x: T)
    requires UniqueKeys(s, key)
    ensures UniqueKeys(Upsert(s, key, x), key)
  {
    var i := FindIndex(s, key, key(x));
    var r := Upsert(s, key, x);
    if i >= 0 {
      forall a, b | 0 <= a < b < |r| ensures key(r[a]) != key(r[b]) {
        if a == i {
          assert key(r[b]) == key(s[b]);
        } else if b == i {
          assert key(r[a]) == key(s[a]);
        }
      }
    } else {
      forall a, b | 0 <= a < b < |r| ensures key(r[a]) != key(r[b]) {
        if b == |s| {
          assert r[a] == s[a];
        }
      }
    }
  }

  /** Filtering distributes over concatenation: every surviving entry keeps
      its relative order. */
  lemma {:induction false} RemoveAppend<T>(a: seq<T>, b: seq<T>, key: T -> string, k: string)
    ensures Remove(a + b, key, k) == Remove(a, key, k) + Remove(b, key, k)
  {
    if |a| > 0 {
      assert (a + b)[1..] == a[1..] + b;
      RemoveAppend(a[1..], b, key, k);
    } else {
      assert a + b == b;
    }
  }

  /** Deleting a key that is not present leaves the list as it was. */
  lemma {:induction false} RemoveAbsent<T>(s: seq<T>, key: T -> string, k: string)
    requires forall j :: 0 <= j < |s| ==> key(s[j]) != k
    ensures Remove(s, key, k) == s
  {
    if |s| > 0 {
      RemoveAbsent(s[1..], key, k);
      assert s == [s[0]] + s[1..];
    }
  }

  /** Deletion removes exactly the entries with the key: the length drops
      by their number. */
  function CountKey<T>(s: seq<T>, key: T -> string, k: string): nat
  {
    if |s| == 0 then 0 else (if key(s[0]) == k then 1 else 0) + CountKey(s[1..], key, k)
  }

  lemma {:induction false} RemoveLength<T>(s: seq<T>, key: T -> string, k: string)
    ensures |Remove(s, key, k)| == |s| - CountKey(s, key, k)
  {
    if |s| > 0 {
      RemoveLength(s[1..], key, k);
    }
  }

  // ---------------------------------------------------------------------
  // The store itself: two localStorage slots, read and written whole.

  class LocalStore {
    /** `typeof window !== 'undefined'`: outside a browser nothing is read
        and every write throws, because `localStorage` is not defined. */
    const inBrowser: bool
    /** The value under `student_idea_launcher_ideas`, None when unset. */
    var ideaSlot: Option<seq<Idea>>
    /** The value under `student_idea_launcher_sessions`, None when unset. */
    var sessionSlot: Option<seq<Session>>

    constructor (inBrowser: bool, ideaSlot: Option<seq<Idea>>, sessionSlot: Option<seq<Session>>)
      ensures this.inBrowser == inBrowser
      ensures this.ideaSlot == ideaSlot && this.sessionSlot == sessionSlot
    {
      this.inBrowser := inBrowser;
      this.ideaSlot := ideaSlot;
      this.sessionSlot := sessionSlot;
    }

    /** `getIdeas`: the stored list, or [] outside a browser or when the
        key is missing. */
    function GetIdeas(): (r: seq<Idea>)
      reads this
      ensures !inBrowser || ideaSlot.None? ==> r == []
      ensures inBrowser && ideaSlot.Some? ==> r == ideaSlot.value
    {
      if !inBrowser then [] else ideaSlot.GetOr([])
    }

    /** `getIdea`: the first idea with the id, or null. */
    function GetIdea(id: string): (r: Option<Idea>)
      reads this
      ensures r.None? <==> forall i :: i in GetIdeas() ==> i.id != id
      ensures r.Some? ==> exists j :: 0 <= j < |GetIdeas()| && GetIdeas()[j] == r.value && r.value.id == id
                            && forall j' :: 0 <= j' < j ==> GetIdeas()[j'].id != id
    {
      Find(GetIdeas(), IdeaKey, id)
    }

    /** `saveIdea`: upsert into the fetched list, then write it back. The
        write throws outside a browser (`ok` is false) and then nothing
        is stored. */
    method SaveIdea(idea: Idea) returns (ok: bool)
      modifies this
      ensures ok == inBrowser
      ensures ok ==> ideaSlot == Some(Upsert(old(GetIdeas()), IdeaKey, idea))
      ensures !ok ==> ideaSlot == old(ideaSlot)
      ensures sessionSlot == old(sessionSlot)
      ensures ok ==> GetIdea(idea.id) == Some(idea)
      ensures ok && UniqueKeys(old(GetIdeas()), IdeaKey) ==> UniqueKeys(GetIdeas(), IdeaKey)
    {
      var ideas := GetIdeas();
      var existingIndex := FindIndex(ideas, IdeaKey, idea.id);
      if existingIndex >= 0 {
        ideas := ideas[existingIndex := idea];
      } else {
        ideas := ideas + [idea];
      }
      if !inBrowser {
        return false;
      }
      ideaSlot := Some(ideas);
      ok := true;
      UpsertThenFind(old(GetIdeas()), IdeaKey, idea);
      if UniqueKeys(old(GetIdeas()), IdeaKey) {
        UpsertKeepsUnique(old(GetIdeas()), IdeaKey, idea);
      }
    }

    /** `deleteIdea`: write back the list without any idea with the id. */
    method DeleteIdea(id: string) returns (ok: bool)
      modifies this
      ensures ok == inBrowser
      ensures ok ==> ideaSlot == Some(Remove(old(GetIdeas()), IdeaKey, id))
      ensures !ok ==> ideaSlot == old(ideaSlot)
      ensures sessionSlot == old(sessionSlot)
      ensures ok ==> GetIdea(id) == None
    {
      var ideas := Remove(GetIdeas(), IdeaKey, id);
      if !inBrowser {
        return false;
      }
      ideaSlot := Some(ideas);
      ok := true;
    }

    /** `getSessions`: the stored list, or [] outside a browser or when the
        key is missing. */
    function GetSessions(): (r: seq<Session>)
      reads this
      ensures !inBrowser || sessionSlot.None? ==> r == []
      ensures inBrowser && sessionSlot.Some? ==> r == sessionSlot.value
    {
      if !inBrowser then [] else sessionSlot.GetOr([])
    }

    /** `getSession`: the first session of the idea, or null. */
    function GetSession(ideaId: string): (r: Option<Session>)
      reads this
      ensures r.None? <==> forall s :: s in GetSessions() ==> s.ideaId != ideaId
      ensures r.Some? ==> exists j :: 0 <= j < |GetSessions()| && GetSessions()[j] == r.value && r.value.ideaId == ideaId
                            && forall j' :: 0 <= j' < j ==> GetSessions()[j'].ideaId != ideaId
    {
      Find(GetSessions(), SessionKey, ideaId)
    }

    /** `saveSession`: upsert by `ideaId`, then write the list back. */
    method SaveSession(session: Session) returns (ok: bool)
      modifies this
      ensures ok == inBrowser
      ensures ok ==> sessionSlot == Some(Upsert(old(GetSessions()), SessionKey, session))
      ensures !ok ==> sessionSlot == old(sessionSlot)
      ensures ideaSlot == old(ideaSlot)
      ensures ok ==> GetSession(session.ideaId) == Some(session)
      ensures ok && UniqueKeys(old(GetSessions()), SessionKey) ==> UniqueKeys(GetSessions(), SessionKey)
    {
      var sessions := GetSessions();
      var existingIndex := FindIndex(sessions, SessionKey, session.ideaId);
      if existingIndex >= 0 {
        sessions := sessions[existingIndex := session];
      } else {
        sessions := sessions + [session];
      }
      if !inBrowser {
        return false;
      }
      sessionSlot := Some(sessions);
      ok := true;
      UpsertThenFind(old(GetSessions()), SessionKey, session);
      if UniqueKeys(old(GetSessions()), SessionKey) {
        UpsertKeepsUnique(old(GetSessions()), SessionKey, session);
      }
    }

    /** `deleteSession`: write back the list without the idea's sessions. */
    method DeleteSession(ideaId: string) returns (ok: bool)
      modifies this
      ensures ok == inBrowser
      ensures ok ==> sessionSlot == Some(Remove(old(GetSessions()), SessionKey, ideaId))
      ensures !ok ==> sessionSlot == old(sessionSlot)
      ensures ideaSlot == old(ideaSlot)
      ensures ok ==> GetSession(ideaId) == None
    {
      var sessions := Remove(GetSessions(), SessionKey, ideaId);
      if !inBrowser {
        return false;
      }
      sessionSlot := Some(sessions);
      ok := true;
    }
  }
}
