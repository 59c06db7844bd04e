/** The local mirror every CRUD hook keeps of a backend collection: a list
    of records, a `loading` flag and an `error` message. The list changes
    only through the four updaters the hooks pass to their state setters:
    replace the whole list, append (`[...prev, x]`), replace by key
    (`prev.map(v => key(v) === id ? x : v)`) and remove by key
    (`prev.filter(v => key(v) !== id)`). */
module KeyedList {
  import opened Common
  import opened Seqs

  /** `prev.map(v => key(v) === id ? x : v)`. */
  function ReplaceByKey<T>(s: seq<T>, key: T -> int, id: int, x: T): (r: seq<T>)
    ensures |r| == |s|
    ensures forall i :: 0 <= i < |s| && key(s[i]) == id ==> r[i] == x
    ensures forall i :: 0 <= i < |s| && key(s[i]) != id ==> r[i] == s[i]
  {
    if s == [] then []
    else [if key(s[0]) == id then x else s[0]] + ReplaceByKey(s[1..], key, id, x)
  }

  /** `prev.filter(v => key(v) !== id)`. */
  function RemoveByKey<T>(s: seq<T>, key: T -> int, id: int): (r: seq<T>)
  {
    Filter(s, v => key(v) != id)
  }

  predicate HasKey<T>(s: seq<T>, key: T -> int, id: int) {
    exists i :: 0 <= i < |s| && key(s[i]) == id
  }

  /** An update whose key is in no element leaves the list as it was. */
  lemma ReplaceMissingKey<T>(s: seq<T>, key: T -> int, id: int, x: T)
    requires !HasKey(s, key, id)
    ensures ReplaceByKey(s, key, id, x) == s
  {
  }

  /** When the new record carries the key it replaces, the list holds the
      same keys, position by position, before and after. */
  lemma ReplaceKeepsKeys<T>(s: seq<T>, key: T -> int, id: int, x: T)
    requires key(x) == id
    ensures forall i :: 0 <= i < |s| ==> key(ReplaceByKey(s, key, id, x)[i]) == key(s[i])
  {
  }

  /** Removal keeps, in their order, exactly the elements with another key,
      and shortens the list by the number of elements with that key. */
  lemma RemoveByKeySpec<T>(s: seq<T>, key: T -> int, id: int)
    ensures Subsequence(RemoveByKey(s, key, id), s)
    ensures forall x :: x in RemoveByKey(s, key, id) <==> x in s && key(x) != id
    ensures !HasKey(RemoveByKey(s, key, id), key, id)
    ensures |RemoveByKey(s, key, id)| == |s| - Count(s, v => key(v) == id)
  {
    var p := (v: T) => key(v) != id;
    var q := (v: T) => key(v) == id;
    FilterIsSubsequence(s, p);
    forall x ensures x in Filter(s, p) <==> x in s && key(x) != id {
      FilterMembership(s, p, x);
    }
    var r := RemoveByKey(s, key, id);
    assert forall i :: 0 <= i < |r| ==> r[i] in r;
    FilterLength(s, p);
    FilterLength(s, q);
    FilterPartition(s, p, q);
    assert |multiset(Filter(s, p))| + |multiset(Filter(s, q))| == |multiset(s)|;
  }

  /** Removing a key that is in no element leaves the list as it was. */
  lemma RemoveMissingKey<T>(s: seq<T>, key: T -> int, id: int)
    requires !HasKey(s, key, id)
    ensures RemoveByKey(s, key, id) == s
  {
    FilterAll(s, v => key(v) != id);
  }

  /** The state of one hook's collection. Each method is one React state
      setter or one whole hook operation; the composite operations run the
      steps in the order the hooks do: `setLoading(true)`, optionally
      `setError(null)`, the backend call, then the list updater on success
      or `setError(err.message || fallback)` on failure, and `setLoading(false)`
      in `finally`. */
  class EntityStore<T> {
    var items: seq<T>
    var loading: bool
    var error: Option<string>

    /** `useState([])`, `useState(false)`, `useState(null)`. */
    constructor ()
      ensures items == [] && !loading && error == None
    {
      items := [];
      loading := false;
      error := None;
    }

    method SetLoading(b: bool)
      modifies this`loading
      ensures loading == b
    {
      loading := b;
    }

    method SetError(e: Option<string>)
      modifies this`error
      ensures error == e
    {
      error := e;
    }

    method SetItems(s: seq<T>)
      modifies this`items
      ensures items == s
    {
      items := s;
    }

    method Append(x: T)
      modifies this`items
      ensures items == old(items) + [x]
    {
      items := items + [x];
    }

    method ReplaceWhere(key: T -> int, id: int, x: T)
      modifies this`items
      ensures items == ReplaceByKey(old(items), key, id, x)
    {
      items := ReplaceByKey(items, key, id, x);
    }

    method RemoveWhere(key: T -> int, id: int)
      modifies this`items
      ensures items == RemoveByKey(old(items), key, id)
    {
      items := RemoveByKey(items, key, id);
    }

    /** The error a failed call leaves behind. */
    method Failed(message: string, fallback: string)
      modifies this`error
      ensures error == Some(ErrorText(message, fallback))
    {
      error := Some(ErrorText(message, fallback));
    }

    /** The prologue of every hook operation. */
    method Begin(clearError: bool)
      modifies this`loading, this`error
      ensures loading
      ensures error == if clearError then None else old(error)
    {
      SetLoading(true);
      if clearError {
        SetError(None);
      }
    }

    /** A fetch whose result replaces the whole list. The outcome is handed
        back for the hooks that rethrow. */
    method Load(response: Outcome<seq<T>>, fallback: string, clearError: bool)
      modifies this`items, this`loading, this`error
      ensures !loading
      ensures response.Ok? ==>
        items == response.value && error == (if clearError then None else old(error))
      ensures response.Fail? ==>
        items == old(items) && error == Some(ErrorText(response.message, fallback))
    {
      Begin(clearError);
      match response {
        case Ok(data) => SetItems(data);
        case Fail(m) => Failed(m, fallback);
      }
      SetLoading(false);
    }

    /** A create whose returned record is appended. */
    method Create(response: Outcome<T>, fallback: string, clearError: bool)
      modifies this`items, this`loading, this`error
      ensures !loading
      ensures response.Ok? ==>
        items == old(items) + [response.value] && error == (if clearError then None else old(error))
      ensures response.Fail? ==>
        items == old(items) && error == Some(ErrorText(response.message, fallback))
    {
      Begin(clearError);
      match response {
        case Ok(data) => Append(data);
        case Fail(m) => Failed(m, fallback);
      }
      SetLoading(false);
    }

    /** An update whose returned record replaces those with key `id`. */
    method Update(key: T -> int, id: int, response: Outcome<T>, fallback: string, clearError: bool)
      modifies this`items, this`loading, this`error
      ensures !loading
      ensures response.Ok? ==>
        items == ReplaceByKey(old(items), key, id, response.value) && error == (if clearError then None else old(error))
      ensures response.Fail? ==>
        items == old(items) && error == Some(ErrorText(response.message, fallback))
    {
      Begin(clearError);
      match response {
        case Ok(data) => ReplaceWhere(key, id, data);
        case Fail(m) => Failed(m, fallback);
      }
      SetLoading(false);
    }

    /** A deactivation: on success the records with key `id` leave the list. */
    method Remove<U>(key: T -> int, id: int, response: Outcome<U>, fallback: string, clearError: bool)
      modifies this`items, this`loading, this`error
      ensures !loading
      ensures response.Ok? ==>
        items == RemoveByKey(old(items), key, id) && error == (if clearError then None else old(error))
      ensures response.Fail? ==>
        items == old(items) && error == Some(ErrorText(response.message, fallback))
    {
      Begin(clearError);
      match response {
        case Ok(_) => RemoveWhere(key, id);
        case Fail(m) => Failed(m, fallback);
      }
      SetLoading(false);
    }

    /** A call that does not touch the list (get-by-id and other queries). */
    method Query<U>(response: Outcome<U>, fallback: string, clearError: bool)
      modifies this`loading, this`error
      ensures !loading
      ensures response.Ok? ==> error == (if clearError then None else old(error))
      ensures response.Fail? ==> error == Some(ErrorText(response.message, fallback))
    {
      Begin(clearError);
      if response.Fail? {
        Failed(response.message, fallback);
      }
      SetLoading(false);
    }
  }
}
