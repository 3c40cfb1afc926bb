/**
 * The API server's write rules. Each function gives the store after one successful call, or None
 * when the server rejects it (not found, already exists, stale resourceVersion).
 */
module ApiStore {
  import opened Base
  import opened ApiObjects

  datatype Store<K, S> = Store(objs: map<K, Obj<S>>, rv: nat)

  /** What the server makes of an edit: status and the terminating mark are its own, and the
      generation counts spec changes. */
  function Edited<S(==)>(stored: Obj<S>, labels: Labels, spec: S, finalizer: bool): Obj<S> {
    stored.(labels := labels, spec := spec, finalizer := finalizer,
         generation := if spec == stored.spec then stored.generation else stored.generation + 1)
  }

  function Fresh<S>(labels: Labels, spec: S): Obj<S> {
    Obj(labels, spec, EMPTY_STATUS, 1, 0, false, false)
  }

  function Put<K, S(==)>(s: Store<K, S>, k: K, o: Obj<S>): Store<K, S> {
    if k in s.objs && s.objs[k] == o then s else Store(s.objs[k := o.(rv := s.rv + 1)], s.rv + 1)
  }

  function Erase<K, S>(s: Store<K, S>, k: K): Store<K, S> {
    Store(s.objs - {k}, s.rv + 1)
  }

  function Create<K, S(==)>(s: Store<K, S>, k: K, labels: Labels, spec: S): Option<Store<K, S>> {
    if k in s.objs then None else Some(Put(s, k, Fresh(labels, spec)))
  }

  /** Update sends the whole object back; it is refused when `copy` was read before the last write. */
  function Update<K, S(==)>(s: Store<K, S>, k: K, copy: Obj<S>): Option<Store<K, S>> {
    if k !in s.objs || s.objs[k].rv != copy.rv then None
    else
      var o := Edited(s.objs[k], copy.labels, copy.spec, copy.finalizer);
      if o.terminating && !o.finalizer then Some(Erase(s, k)) else Some(Put(s, k, o))
  }

  /** What a delete request leaves of an object: nothing, or the object marked terminating. */
  function Deleted<S>(o: Obj<S>): Option<Obj<S>> {
    if !o.finalizer then None
    else if o.terminating then Some(o)
    else Some(o.(terminating := true, generation := o.generation + 1))
  }

  function Delete<K, S(==)>(s: Store<K, S>, k: K): Option<Store<K, S>> {
    if k !in s.objs then None
    else match Deleted(s.objs[k])
      case None => Some(Erase(s, k))
      case Some(o) => Some(Put(s, k, o))
  }

  /** A merge patch of the recorded local IP; it carries no version check. */
  function PatchLocalIP<K, S(==)>(s: Store<K, S>, k: K, ip: string): Option<Store<K, S>> {
    if k !in s.objs then None
    else Some(Put(s, k, s.objs[k].(status := s.objs[k].status.(localIP := ip))))
  }

  /** A merge patch of the Ready condition, as the difference from the caller's own copy: when that
      copy already has the condition the patch is empty. */
  function PatchReady<K, S(==)>(s: Store<K, S>, k: K, copy: Obj<S>, c: Condition): Option<Store<K, S>> {
    if k !in s.objs then None
    else if copy.status.ready == Some(c) then Some(s)
    else Some(Put(s, k, s.objs[k].(status := s.objs[k].status.(ready := Some(c)))))
  }
}
