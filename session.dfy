/**
 * The tracing session registry of the session daemon: one global list of
 * sessions with an element count, prepend and unlink on that list, a linear
 * lookup by name and the create and destroy operations built on them.
 *
 * The list mutex and the per-session mutex only serialise callers; they are
 * no-ops here.  The list is a `seq` in list order (head first).
 */
module SessionRegistry {
  import opened Wrappers
  import opened CStrings
  import opened SessiondComm

  /** Names are compared on this many leading characters. */
  const NAME_MAX: nat := 255

  /** The kernel tracer session of a tracing session; its contents are not part of this model. */
  class KernelSession {
  }

  /** A user-space tracer session of a tracing session; its contents are not part of this model. */
  class UstSessionRef {
  }

  /** One tracing session: a name, a system path and its tracer sessions. */
  class Session {
    const name: string
    const path: string
    var kernelSession: KernelSession?
    var ustSessions: seq<UstSessionRef>

    /** Fills a fresh session the way session_create does after its allocation. */
    constructor (name: string, path: string)
      ensures this.name == name && this.path == path
      ensures kernelSession == null && ustSessions == []
    {
      this.name := name;
      this.path := path;
      kernelSession := null;
      ustSessions := [];
    }
  }

  /** Two names the registry cannot tell apart. */
  predicate SameName(a: string, b: string) {
    StrnEqual(a, b, NAME_MAX)
  }

  /** No two sessions of `ss` have the same name. */
  ghost predicate DistinctNames(ss: seq<Session>) {
    forall i, j :: 0 <= i < j < |ss| ==> !SameName(ss[i].name, ss[j].name)
  }

  /** The first session of `ss` whose name matches `name`, or null. */
  function First(ss: seq<Session>, name: string): (r: Session?)
    ensures r == null <==> forall i :: 0 <= i < |ss| ==> !SameName(ss[i].name, name)
    ensures r != null ==>
      exists i :: 0 <= i < |ss| && ss[i] == r && SameName(r.name, name) &&
        forall j :: 0 <= j < i ==> !SameName(ss[j].name, name)
  {
    if ss == [] then null
    else if SameName(ss[0].name, name) then ss[0]
    else
      var r := First(ss[1..], name);
      FirstOfTail(ss, name, r);
      r
  }

  /** A first match in the tail of `ss`, whose head does not match, is the first match in `ss`. */
  lemma FirstOfTail(ss: seq<Session>, name: string, r: Session?)
    requires ss != [] && !SameName(ss[0].name, name)
    requires r == null <==> forall i :: 0 <= i < |ss[1..]| ==> !SameName(ss[1..][i].name, name)
    requires r != null ==>
      exists i :: 0 <= i < |ss[1..]| && ss[1..][i] == r && SameName(r.name, name) &&
        forall j :: 0 <= j < i ==> !SameName(ss[1..][j].name, name)
    ensures r == null <==> forall i :: 0 <= i < |ss| ==> !SameName(ss[i].name, name)
    ensures r != null ==>
      exists i :: 0 <= i < |ss| && ss[i] == r && SameName(r.name, name) &&
        forall j :: 0 <= j < i ==> !SameName(ss[j].name, name)
  {
    if r != null {
      var k :| 0 <= k < |ss[1..]| && ss[1..][k] == r && SameName(r.name, name) &&
        forall j :: 0 <= j < k ==> !SameName(ss[1..][j].name, name);
      assert ss[k + 1] == r;
      forall j | 0 <= j < k + 1 ensures !SameName(ss[j].name, name) {
        if j > 0 { assert ss[j] == ss[1..][j - 1]; }
      }
    } else {
      forall i | 0 <= i < |ss| ensures !SameName(ss[i].name, name) {
        if i > 0 { assert ss[i] == ss[1..][i - 1]; }
      }
    }
  }

  /** The position of the first occurrence of `s` in `ss`. */
  function IndexOf(ss: seq<Session>, s: Session): (i: nat)
    requires s in ss
    ensures i < |ss| && ss[i] == s
    ensures forall j :: 0 <= j < i ==> ss[j] != s
  {
    if ss[0] == s then 0 else 1 + IndexOf(ss[1..], s)
  }

  /** `ss` with `s` unlinked. */
  function Unlink(ss: seq<Session>, s: Session): seq<Session>
    requires s in ss
  {
    var i := IndexOf(ss, s);
    ss[..i] + ss[i + 1..]
  }

  /** Unlinking one session keeps the others' names apart and leaves one fewer. */
  lemma UnlinkKeepsDistinct(ss: seq<Session>, s: Session)
    requires s in ss && DistinctNames(ss)
    ensures DistinctNames(Unlink(ss, s))
    ensures |Unlink(ss, s)| == |ss| - 1
    ensures forall t :: t in Unlink(ss, s) <==> t in ss && !SameName(t.name, s.name)
  {
    var i := IndexOf(ss, s);
    var r := Unlink(ss, s);
    assert |r| == |ss| - 1;
    forall p | 0 <= p < |r| ensures r[p] == ss[if p < i then p else p + 1] {
    }
    forall p, q | 0 <= p < q < |r| ensures !SameName(r[p].name, r[q].name) {
      assert r[p] == ss[if p < i then p else p + 1];
      assert r[q] == ss[if q < i then q else q + 1];
    }
    forall t ensures t in r <==> t in ss && !SameName(t.name, s.name) {
      if t in r {
        var p :| 0 <= p < |r| && r[p] == t;
        var k := if p < i then p else p + 1;
        assert ss[k] == t && k != i;
        if k < i { assert !SameName(ss[k].name, ss[i].name); }
        else { assert !SameName(ss[i].name, ss[k].name); }
      }
      if t in ss && !SameName(t.name, s.name) {
        var k :| 0 <= k < |ss| && ss[k] == t;
        assert k != i;
        assert t == r[if k < i then k else k - 1];
      }
    }
  }

  /** After unlinking, the name is no longer found and every other session is still listed. */
  lemma UnlinkRemovesOnlyThat(ss: seq<Session>, s: Session)
    requires s in ss && DistinctNames(ss)
    ensures First(Unlink(ss, s), s.name) == null
    ensures forall t :: t in ss && t != s ==> t in Unlink(ss, s)
  {
    UnlinkKeepsDistinct(ss, s);
    var r := Unlink(ss, s);
    forall p | 0 <= p < |r| ensures !SameName(r[p].name, s.name) {
      assert r[p] in r;
    }
    var i := IndexOf(ss, s);
    forall t | t in ss && t != s ensures t in r {
      var k :| 0 <= k < |ss| && ss[k] == t;
      if k < i { assert !SameName(ss[k].name, ss[i].name); }
      else { assert !SameName(ss[i].name, ss[k].name); }
    }
  }

  /** The global session list: its entries, head first, and its element count. */
  class SessionList {
    var sessions: seq<Session>
    var count: int

    /** The count tracks the list and no two sessions share a name. */
    ghost predicate Valid()
      reads this
    {
      count == |sessions| && DistinctNames(sessions)
    }

    /** The statically initialised list: empty, count 0. */
    constructor ()
      ensures Valid() && sessions == [] && count == 0
    {
      sessions := [];
      count := 0;
    }

    /** add_session_list: inserts at the head and bumps the count. */
    method AddSessionList(ls: Session)
      modifies this
      ensures sessions == [ls] + old(sessions) && count == old(count) + 1
    {
      sessions := [ls] + sessions;
      count := count + 1;
    }

    /** del_session_list: unlinks `ls`; the count drops only while it is positive. */
    method DelSessionList(ls: Session)
      requires ls in sessions
      modifies this
      ensures sessions == Unlink(old(sessions), ls)
      ensures count == if old(count) > 0 then old(count) - 1 else old(count)
      ensures old(count) >= 0 ==> count >= 0
    {
      sessions := Unlink(sessions, ls);
      if count > 0 {
        count := count - 1;
      }
    }

    /** session_find_by_name: the first session in list order whose name matches, or null. */
    method FindByName(name: string) returns (s: Session?)
      ensures s == First(sessions, name)
      ensures s != null ==> s in sessions && SameName(s.name, name)
      ensures s == null <==> forall i :: 0 <= i < |sessions| ==> !SameName(sessions[i].name, name)
    {
      var found := false;
      var k := 0;
      while k < |sessions| && !found
        invariant 0 <= k <= |sessions|
        invariant found ==> k < |sessions| && SameName(sessions[k].name, name)
        invariant forall j :: 0 <= j < k ==> !SameName(sessions[j].name, name)
        decreases |sessions| - k, if found then 0 else 1
      {
        if SameName(sessions[k].name, name) {
          found := true;
        } else {
          k := k + 1;
        }
      }
      if found {
        s := sessions[k];
        FirstIsEarliest(sessions, name, k);
      } else {
        s := null;
      }
    }

    /**
     * session_create.  The duplicate lookup runs first, on the name as
     * given; then the allocation of the session and the copies of the name
     * and path, whose failures are the flags `mallocOk`, `nameCopyOk` and
     * `pathCopyOk`.  A missing (NULL) name or path is fatal.  Comparing
     * against a NULL name is undefined in C, so a NULL name is only
     * modelled on an empty list.
     */
    method Create(name: Option<string>, path: Option<string>, mallocOk: bool, nameCopyOk: bool, pathCopyOk: bool)
      returns (ret: ReturnCode)
      requires Valid()
      requires name.None? ==> sessions == []
      modifies this
      ensures Valid()
      ensures ret == Ok || ret == ExistSess || ret == Fatal
      ensures ret == ExistSess <==> name.Some? && First(old(sessions), name.value) != null
      ensures ret == Ok <==>
        name.Some? && First(old(sessions), name.value) == null &&
        mallocOk && nameCopyOk && path.Some? && pathCopyOk
      ensures ret != Ok ==> sessions == old(sessions) && count == old(count)
      ensures ret == Ok ==>
        |sessions| == |old(sessions)| + 1 && count == old(count) + 1 &&
        sessions[1..] == old(sessions) && fresh(sessions[0]) &&
        sessions[0].name == name.value && sessions[0].path == path.value &&
        sessions[0].kernelSession == null && sessions[0].ustSessions == [] &&
        First(sessions, name.value) == sessions[0]
    {
      if name.Some? {
        var existing := FindByName(name.value);
        if existing != null {
          return ExistSess;
        }
      }
      if !mallocOk {
        return Fatal;
      }
      if name.None? || !nameCopyOk {
        return Fatal;
      }
      if path.None? || !pathCopyOk {
        return Fatal;
      }
      var created := new Session(name.value, path.value);
      AddSessionList(created);
      NewHeadKeepsDistinct(created, old(sessions));
      ret := Ok;
    }

    /**
     * session_destroy.  Null is refused with LTTCOMM_OK and nothing changes;
     * otherwise the session is unlinked, the count drops by one and the
     * result is LTTCOMM_OK as well.  Unlinking a session that is not in the
     * list is undefined in C, hence the precondition.
     */
    method Destroy(s: Session?) returns (ret: ReturnCode)
      requires Valid()
      requires s != null ==> s in sessions
      modifies this
      ensures Valid() && ret == Ok
      ensures s == null ==> sessions == old(sessions) && count == old(count)
      ensures s != null ==>
        sessions == Unlink(old(sessions), s) && count == old(count) - 1 &&
        s !in sessions && First(sessions, s.name) == null &&
        forall t :: t in old(sessions) && t != s ==> t in sessions
    {
      if s == null {
        return Ok;
      }
      UnlinkKeepsDistinct(sessions, s);
      UnlinkRemovesOnlyThat(sessions, s);
      DelSessionList(s);
      ret := Ok;
    }
  }

  /** A match at `k` with none before it is what First finds. */
  lemma {:induction false} FirstIsEarliest(ss: seq<Session>, name: string, k: nat)
    requires k < |ss| && SameName(ss[k].name, name)
    requires forall j :: 0 <= j < k ==> !SameName(ss[j].name, name)
    ensures First(ss, name) == ss[k]
    decreases k
  {
    if k > 0 {
      FirstIsEarliest(ss[1..], name, k - 1);
    }
  }

  /** A new head whose name is not in the list keeps the names distinct and is found first. */
  lemma NewHeadKeepsDistinct(s: Session, ss: seq<Session>)
    requires DistinctNames(ss) && First(ss, s.name) == null
    ensures DistinctNames([s] + ss)
    ensures First([s] + ss, s.name) == s
  {
    var r := [s] + ss;
    forall i, j | 0 <= i < j < |r| ensures !SameName(r[i].name, r[j].name) {
      if i == 0 {
        assert r[j] == ss[j - 1];
        assert !SameName(ss[j - 1].name, s.name);
      } else {
        assert r[i] == ss[i - 1] && r[j] == ss[j - 1];
      }
    }
  }

  /** Creating then destroying a session restores the registry's list. */
  lemma CreateThenDestroyRestores(s: Session, ss: seq<Session>)
    requires s !in ss
    ensures Unlink([s] + ss, s) == ss
  {
  }
}
