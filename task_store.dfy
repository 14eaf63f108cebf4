/**
 * The task store both task screens share: an ordered list of tasks with
 * add (on text of at least three trimmed characters), toggle by id and
 * remove by id, plus the derived active/completed counts.
 *
 * The two screens are two instances of this store. They differ in the type
 * of the creation stamp `S` (`int` milliseconds on the persistent screen,
 * the unit type `()` on the earlier screen, which has no timestamp) and in
 * where `Add` puts the new task (`Front` and `Back` respectively).
 */
module TaskStore {
  import opened Text
  import Records

  /** `{ id, texto, concluida, criadaEm }`. */
  datatype Task<S> = Task(id: string, text: string, done: bool, createdAt: S)

  /** Where a new task goes: `[novaTarefa, ...prev]` or `[...prev, novaTarefa]`. */
  datatype Placement = Front | Back

  /** The shortest trimmed input the add handler accepts. */
  const MinTextLength := 3

  function Id<S>(t: Task<S>): string { t.id }

  /** Flips `concluida` and keeps every other field. */
  function Flip<S>(t: Task<S>): (u: Task<S>)
    ensures u.id == t.id && u.text == t.text && u.createdAt == t.createdAt && u.done != t.done
  {
    t.(done := !t.done)
  }

  /** The add handler's guard: `conteudo.trim().length >= 3`, where a
      JavaScript length counts UTF-16 code units. An accepted input also
      enables the add button (`disabled={!conteudo.trim()}`). */
  predicate Accepts(input: string)
    ensures Accepts(input) ==> Trim(input) != [] && !AllWhitespace(input)
  {
    TrimEmptyIff(input);
    Utf16Length(Trim(input)) >= MinTextLength
  }

  /** The task built from the input: trimmed text, not yet done; when the
      input passes the guard, its text passes the guard too. */
  function NewTask<S>(input: string, id: string, stamp: S): (t: Task<S>)
    ensures t.id == id && t.text == Trim(input) && !t.done && t.createdAt == stamp
    ensures Accepts(input) ==> Utf16Length(t.text) >= MinTextLength && Accepts(t.text)
  {
    TrimIdempotent(input);
    Task(id, Trim(input), false, stamp)
  }

  /** The list after the add handler; an input shorter than three trimmed
      characters leaves it as it was. */
  function Add<S>(s: seq<Task<S>>, input: string, id: string, stamp: S, at: Placement): (r: seq<Task<S>>)
    ensures !Accepts(input) ==> r == s
    ensures Accepts(input) ==> |r| == |s| + 1
    ensures Accepts(input) && at == Front ==> r[0] == NewTask(input, id, stamp) && r[1..] == s
    ensures Accepts(input) && at == Back ==> r[..|s|] == s && r[|s|] == NewTask(input, id, stamp)
  {
    if !Accepts(input) then s
    else match at
      case Front => [NewTask(input, id, stamp)] + s
      case Back => s + [NewTask(input, id, stamp)]
  }

  /** `prev.filter(t => t.id !== id)`. */
  function Remove<S(==, !new)>(s: seq<Task<S>>, id: string): (r: seq<Task<S>>)
    ensures forall t :: t in r <==> t in s && t.id != id
  {
    Records.Without(s, Id, id)
  }

  /** `prev.map(t => t.id === id ? { ...t, concluida: !t.concluida } : t)`. */
  function Toggle<S>(s: seq<Task<S>>, id: string): (r: seq<Task<S>>)
    ensures |r| == |s|
    ensures forall i :: 0 <= i < |s| ==>
      && r[i].id == s[i].id && r[i].text == s[i].text && r[i].createdAt == s[i].createdAt
      && r[i].done == (if s[i].id == id then !s[i].done else s[i].done)
  {
    Records.UpdateWhere(s, Id, id, Flip)
  }

  /** `tarefas.filter(t => !t.concluida).length`. */
  function ActiveCount<S>(s: seq<Task<S>>): (n: nat)
    ensures n <= |s|
    ensures n == 0 <==> forall i :: 0 <= i < |s| ==> s[i].done
  {
    if s == [] then 0 else (if s[0].done then 0 else 1) + ActiveCount(s[1..])
  }

  /** `tarefas.filter(t => t.concluida).length`. */
  function CompletedCount<S>(s: seq<Task<S>>): (n: nat)
    ensures n <= |s|
    ensures n == 0 <==> forall i :: 0 <= i < |s| ==> !s[i].done
  {
    if s == [] then 0 else (if s[0].done then 1 else 0) + CompletedCount(s[1..])
  }

  // ---------------------------------------------------------------------
  // Properties of the store

  /** The guard counts UTF-16 code units, not code points: an emoji outside the
      Basic Multilingual Plane followed by one letter is three units long and
      is accepted, while two letters are not. */
  lemma AcceptsCountsCodeUnits()
    ensures Accepts("\U{1F600}a") && |Trim("\U{1F600}a")| == 2
    ensures !Accepts("ab")
  {
    assert TrimStart("\U{1F600}a") == "\U{1F600}a";
    assert TrimEnd("\U{1F600}a") == "\U{1F600}a";
    assert Utf16Length("\U{1F600}a") == 2 + Utf16Length("a");
    assert TrimStart("ab") == "ab";
    assert TrimEnd("ab") == "ab";
  }

  /** Every task is either active or completed. */
  lemma {:induction false} CountsPartition<S>(s: seq<Task<S>>)
    ensures ActiveCount(s) + CompletedCount(s) == |s|
  {
    if s != [] {
      CountsPartition(s[1..]);
    }
  }

  lemma {:induction false} CountsAppend<S>(a: seq<Task<S>>, b: seq<Task<S>>)
    ensures ActiveCount(a + b) == ActiveCount(a) + ActiveCount(b)
    ensures CompletedCount(a + b) == CompletedCount(a) + CompletedCount(b)
  {
    if a == [] {
      assert a + b == b;
    } else {
      assert (a + b)[1..] == a[1..] + b;
      CountsAppend(a[1..], b);
    }
  }

  /** An accepted add, at either end, adds one active task and no completed one. */
  lemma AddCounts<S>(s: seq<Task<S>>, input: string, id: string, stamp: S, at: Placement)
    requires Accepts(input)
    ensures ActiveCount(Add(s, input, id, stamp, at)) == ActiveCount(s) + 1
    ensures CompletedCount(Add(s, input, id, stamp, at)) == CompletedCount(s)
  {
    var t := NewTask(input, id, stamp);
    CountsAppend([t], s);
    CountsAppend(s, [t]);
  }

  /** The two placements store the same tasks; only the order differs. */
  lemma AddPlacementsAgree<S>(s: seq<Task<S>>, input: string, id: string, stamp: S)
    ensures multiset(Add(s, input, id, stamp, Front)) == multiset(Add(s, input, id, stamp, Back))
  {
  }

  /** Appending keeps the old list as a prefix of the new one. */
  lemma AddBackExtends<S>(s: seq<Task<S>>, input: string, id: string, stamp: S)
    ensures s <= Add(s, input, id, stamp, Back)
  {
  }

  /** Prepending keeps the old list as a suffix of the new one. */
  lemma AddFrontExtends<S>(s: seq<Task<S>>, input: string, id: string, stamp: S)
    ensures var r := Add(s, input, id, stamp, Front); s == r[|r| - |s|..]
  {
  }

  /** Toggling the same id twice gives back the original list. */
  lemma ToggleTwice<S>(s: seq<Task<S>>, id: string)
    ensures Toggle(Toggle(s, id), id) == s
  {
    var r := Toggle(Toggle(s, id), id);
    forall i | 0 <= i < |s| ensures r[i] == s[i] {
    }
  }

  /** Toggling an id no task carries leaves the list as it was. */
  lemma ToggleAbsent<S>(s: seq<Task<S>>, id: string)
    requires forall i :: 0 <= i < |s| ==> s[i].id != id
    ensures Toggle(s, id) == s
  {
  }

  /** Toggling the id that exactly one task carries moves that task from the
      active count to the completed count, or back. */
  lemma {:induction false} ToggleMovesOne<S>(s: seq<Task<S>>, id: string, k: nat)
    requires k < |s| && s[k].id == id
    requires forall i :: 0 <= i < |s| && i != k ==> s[i].id != id
    ensures s[k].done ==>
      ActiveCount(Toggle(s, id)) == ActiveCount(s) + 1 && CompletedCount(Toggle(s, id)) == CompletedCount(s) - 1
    ensures !s[k].done ==>
      ActiveCount(Toggle(s, id)) == ActiveCount(s) - 1 && CompletedCount(Toggle(s, id)) == CompletedCount(s) + 1
  {
    var t := Toggle(s, id);
    assert t == [if s[0].id == id then Flip(s[0]) else s[0]] + Toggle(s[1..], id);
    assert t[1..] == Toggle(s[1..], id);
    if k == 0 {
      ToggleAbsent(s[1..], id);
    } else {
      ToggleMovesOne(s[1..], id, k - 1);
    }
  }

  /** Removing an id that no task carries leaves the list as it was; removing
      one that some task carries shortens it. */
  lemma RemoveAbsent<S(!new)>(s: seq<Task<S>>, id: string)
    ensures (forall i :: 0 <= i < |s| ==> s[i].id != id) <==> Remove(s, id) == s
  {
    if forall i :: 0 <= i < |s| ==> s[i].id != id {
      Records.WithoutAbsent(s, Id, id);
    } else {
      var k :| 0 <= k < |s| && s[k].id == id;
      Records.WithoutPresentShrinks(s, Id, id, k);
    }
  }

  /** The tasks that survive a removal keep their relative order. */
  lemma RemoveAppend<S(!new)>(a: seq<Task<S>>, b: seq<Task<S>>, id: string)
    ensures Remove(a + b, id) == Remove(a, id) + Remove(b, id)
  {
    Records.WithoutAppend(a, b, Id, id);
  }
}
