/** Resolving the configured `table_name` against the fetched stream index:
    the first entry whose `table_name` equals it, scanned in order. Reading
    `table_name` of an entry that lacks the key raises inside the scan, and
    that exception is caught together with the "no match" case, so such an
    entry ends the scan as "not found". */
module StreamLookup {
  import opened Records

  datatype Lookup = Found(stream: StreamDescriptor) | NotFound

  /** Entry `i` is where the scan stops with a match: it carries `name`, and
      every entry before it carries some other name. */
  ghost predicate FirstMatchAt(ss: seq<StreamDescriptor>, name: string, i: int)
  {
    && 0 <= i < |ss|
    && ss[i].tableName == Some(name)
    && forall j :: 0 <= j < i ==> ss[j].tableName.Some? && ss[j].tableName.value != name
  }

  function FindStream(ss: seq<StreamDescriptor>, name: string): (r: Lookup)
    ensures r.Found? ==> r.stream in ss && r.stream.tableName == Some(name)
  {
    if ss == [] then NotFound
    else
      match ss[0].tableName
      case None => NotFound
      case Some(n) => if n == name then Found(ss[0]) else FindStream(ss[1..], name)
  }

  /** The scan finds a stream exactly when some entry is the first match, and
      then it is that entry. */
  lemma {:induction false} FindStreamIsFirstMatch(ss: seq<StreamDescriptor>, name: string)
    ensures FindStream(ss, name).Found? <==> exists i :: FirstMatchAt(ss, name, i)
    ensures forall i :: FirstMatchAt(ss, name, i) ==> FindStream(ss, name) == Found(ss[i])
  {
    if ss == [] {
    } else if ss[0].tableName.None? {
      assert forall i :: !FirstMatchAt(ss, name, i);
    } else if ss[0].tableName.value == name {
      assert FirstMatchAt(ss, name, 0);
      assert forall i :: FirstMatchAt(ss, name, i) ==> i == 0;
    } else {
      var tl := ss[1..];
      FindStreamIsFirstMatch(tl, name);
      forall i | FirstMatchAt(ss, name, i) ensures i > 0 && FirstMatchAt(tl, name, i - 1) {
        assert i != 0;
        forall j | 0 <= j < i - 1 ensures tl[j].tableName.Some? && tl[j].tableName.value != name {
          assert tl[j] == ss[j + 1];
        }
      }
      forall k | FirstMatchAt(tl, name, k) ensures FirstMatchAt(ss, name, k + 1) {
        forall j | 0 <= j < k + 1 ensures ss[j].tableName.Some? && ss[j].tableName.value != name {
          if j > 0 { assert ss[j] == tl[j - 1]; }
        }
      }
    }
  }

  /** A name no entry carries is never found. */
  lemma AbsentNameNotFound(ss: seq<StreamDescriptor>, name: string)
    requires forall i :: 0 <= i < |ss| ==> ss[i].tableName != Some(name)
    ensures FindStream(ss, name) == NotFound
  {
  }

  /** When every entry has a `table_name`, the scan finds a stream exactly
      when some entry carries the name, and then it is the entry of least
      index that does. */
  lemma {:induction false} FindStreamWellFormed(ss: seq<StreamDescriptor>, name: string)
    requires forall i :: 0 <= i < |ss| ==> ss[i].tableName.Some?
    ensures FindStream(ss, name).Found? <==> exists i :: 0 <= i < |ss| && ss[i].tableName == Some(name)
    ensures forall i :: 0 <= i < |ss| && ss[i].tableName == Some(name) &&
                        (forall j :: 0 <= j < i ==> ss[j].tableName != Some(name)) ==>
                        FindStream(ss, name) == Found(ss[i])
  {
    FindStreamIsFirstMatch(ss, name);
    if i :| 0 <= i < |ss| && ss[i].tableName == Some(name) {
      var k := FirstIndexOf(ss, name, i);
      assert FirstMatchAt(ss, name, k);
    }
    forall i | 0 <= i < |ss| && ss[i].tableName == Some(name) &&
               (forall j :: 0 <= j < i ==> ss[j].tableName != Some(name))
      ensures FindStream(ss, name) == Found(ss[i])
    {
      assert FirstMatchAt(ss, name, i);
    }
  }

  /** Some index at or below `i` holds the first occurrence of `name`. */
  lemma {:induction false} FirstIndexOf(ss: seq<StreamDescriptor>, name: string, i: int) returns (k: int)
    requires forall j :: 0 <= j < |ss| ==> ss[j].tableName.Some?
    requires 0 <= i < |ss| && ss[i].tableName == Some(name)
    ensures 0 <= k <= i && ss[k].tableName == Some(name)
    ensures forall j :: 0 <= j < k ==> ss[j].tableName != Some(name)
    decreases i
  {
    if j :| 0 <= j < i && ss[j].tableName == Some(name) {
      k := FirstIndexOf(ss, name, j);
    } else {
      k := i;
    }
  }
}
