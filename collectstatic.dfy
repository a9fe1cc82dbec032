/**
 * `collectstatic`'s `delete_file`: a file already in a Cumulus storage whose
 * etag equals the MD5 of the local file is skipped; every other case is left
 * to Django's own `delete_file`. As written the module cannot be imported:
 * it imports `CumulusStorage`, a name `cumulus.storage` does not define.
 */
module CollectStatic {
  import opened Common
  import opened Authentication
  import Storage

  /** The command's module fails to import: `cumulus.storage` has no `CumulusStorage`. */
  lemma CommandImportFails()
    ensures ImportName(Storage.STORAGE_CLASSES, "CumulusStorage") == Err(ImportError("CumulusStorage"))
    ensures ImportName(Storage.STORAGE_CLASSES, "SwiftclientStorage").Ok?
  {
  }

  /** What `delete_file` does: return False without calling the parent, call the parent, or raise. */
  datatype Decision = Skip | Delegate | Raise(error: Error)

  /**
   * The decision for one file. `isCumulus` is the isinstance test,
   * `present` the storage's answer for the prefixed path, `obj` what
   * `_get_object` returns for it, and `md5Hex` the hex MD5 of the local bytes.
   */
  function DeleteFileDecision(isCumulus: bool, present: bool, obj: Result<Option<ObjectInfo>>,
                              local: seq<bv8>, md5Hex: seq<bv8> -> string): (r: Decision)
  {
    if !isCumulus || !present then Delegate
    else match obj
      case Err(e) => Raise(e)
      case Ok(None) => Raise(AttributeError("etag"))
      case Ok(Some(o)) => if o.etag == md5Hex(local) then Skip else Delegate
  }

  /** A file is skipped exactly when it is in a Cumulus storage and its object's etag is the local MD5. */
  lemma SkipExactlyOnMatchingEtag(isCumulus: bool, present: bool, obj: Result<Option<ObjectInfo>>,
                                  local: seq<bv8>, md5Hex: seq<bv8> -> string)
    ensures DeleteFileDecision(isCumulus, present, obj, local, md5Hex) == Skip
      <==> isCumulus && present && obj.Ok? && obj.value.Some? && obj.value.value.etag == md5Hex(local)
  {
  }

  /**
   * Another storage, or a path the storage does not have, goes to the
   * parent; so does an existing object whose etag differs. An error while
   * reading the object is raised unchanged.
   */
  lemma DelegateCases(isCumulus: bool, present: bool, obj: Result<Option<ObjectInfo>>,
                      local: seq<bv8>, md5Hex: seq<bv8> -> string)
    ensures !isCumulus || !present ==> DeleteFileDecision(isCumulus, present, obj, local, md5Hex) == Delegate
    ensures isCumulus && present && obj.Ok? && obj.value.Some? && obj.value.value.etag != md5Hex(local) ==>
      DeleteFileDecision(isCumulus, present, obj, local, md5Hex) == Delegate
    ensures isCumulus && present && obj.Err? ==> DeleteFileDecision(isCumulus, present, obj, local, md5Hex) == Raise(obj.error)
  {
  }

  /**
   * `SwiftclientStorage` has no `_get_object` (its lookup is
   * `_get_cloud_obj`), so against it the `_get_object` call raises
   * AttributeError, which `delete_file` re-raises.
   */
  lemma SwiftclientStorageRaises(local: seq<bv8>, md5Hex: seq<bv8> -> string)
    ensures DeleteFileDecision(true, true, Err(AttributeError("_get_object")), local, md5Hex)
      == Raise(AttributeError("_get_object"))
  {
  }

  /**
   * Against a storage whose `_get_object` behaves as `Auth._get_object`
   * does (no storage class of the package has one): the decision made with
   * the object that lookup answers.
   */
  lemma DecisionFromLookup(present: bool, c: CdnContainer, name: string, local: seq<bv8>, md5Hex: seq<bv8> -> string)
    requires present
    ensures var d := DeleteFileDecision(true, present, ObjectLookup(Ok(Some(c)), name), local, md5Hex);
      && (name in c.objects && c.objects[name].etag == md5Hex(local) <==> d == Skip)
      && (name !in c.objects ==> d == Raise(AttributeError("etag")))
  {
  }
}
