/** The image handlers run one at a time: product rows, shop logos and the directory they share,
    changed in place. Images.dfy interleaves the same handlers. */
module ImageStore {
  import opened Wrappers
  import opened Images

  /** Where a handler stops early, if it does: the upload is refused, or the row write fails. */
  datatype Trouble = Unreadable | RenameFails | WriteFails

  predicate NamesDiffer(slots: map<Slot, Path>) {
    forall a, b :: a in slots && b in slots && slots[a].Image? && slots[a] == slots[b] ==> a == b
  }

  class PictureTables {
    var slots: map<Slot, Path>
    var files: set<FileName>

    /** The directory holds the files the columns name, and no two columns name the same one. */
    ghost predicate Exact()
      reads this
    {
      files == NamedFiles(slots) && NamesDiffer(slots)
    }

    constructor (columns: map<Slot, Path>)
      requires Fresh(columns)
      ensures slots == columns && files == {} && Exact()
    {
      slots := columns;
      files := {};
    }

    method PrepareImage(r: ReqId)
      modifies this`files
      ensures files == old(files) + {Temporary(r)}
    {
      files := files + {Temporary(r)};
    }

    method CommitImage(r: ReqId)
      modifies this`files
      ensures files == old(files) - {Temporary(r)} + {Stored(r)}
    {
      files := files - {Temporary(r)} + {Stored(r)};
    }

    /** Removing a file that is not there is no error. */
    method DiscardImage(r: ReqId)
      modifies this`files
      ensures files == old(files) - {Temporary(r), Stored(r)}
    {
      files := files - {Temporary(r)};
      files := files - {Stored(r)};
    }

    method RemoveProductImage(path: Path)
      modifies this`files
      ensures files == if path.Image? then old(files) - {Stored(path.req)} else old(files)
    {
      if path.Image? {
        files := files - {Stored(path.req)};
      }
    }

    /** createProduct, updateProduct and updateShopLogo: upload, rename, write the row, then delete
        the file the row named before. On success exactly one file replaces another; on trouble
        nothing has changed. */
    method StoreImage(slot: Slot, r: ReqId, trouble: Option<Trouble>) returns (ok: bool)
      requires Exact() && Temporary(r) !in files && Stored(r) !in files
      requires slot.Logo? ==> slot in slots
      modifies this
      ensures Exact() && ok == trouble.None?
      ensures !ok ==> slots == old(slots) && files == old(files)
      ensures ok ==> slots == old(slots)[slot := Image(r)] && Stored(r) in files
      ensures ok ==> forall f :: f in files <==>
                f == Stored(r) || (f in old(files)
                    && !(slot in old(slots) && f.Stored? && old(slots)[slot] == Image(f.req)))
    {
      if trouble.Some? && trouble.value.Unreadable? {
        return false;
      }
      PrepareImage(r);
      var former := if slot in slots then slots[slot] else Elsewhere;
      if trouble.Some? && trouble.value.RenameFails? {
        DiscardImage(r);
        return false;
      }
      CommitImage(r);
      if trouble.Some? && trouble.value.WriteFails? {
        DiscardImage(r);
        return false;
      }
      slots := slots[slot := Image(r)];
      RemoveProductImage(former);
      NamedAfterWrite(old(slots), slot, r, former, files);
      return true;
    }
  }

  /** One column rewritten: its file takes the place of the former one among the named files. */
  lemma NamedAfterWrite(slots: map<Slot, Path>, slot: Slot, r: ReqId, former: Path, files: set<FileName>)
    requires NamesDiffer(slots)
    requires Stored(r) !in NamedFiles(slots) && former == (if slot in slots then slots[slot] else Elsewhere)
    requires files == (NamedFiles(slots) + {Stored(r)}) - (if former.Image? then {Stored(former.req)} else {})
    ensures files == NamedFiles(slots[slot := Image(r)]) && NamesDiffer(slots[slot := Image(r)])
  {
    var after := slots[slot := Image(r)];
    assert forall a :: a in slots && slots[a] == Image(r) ==> Stored(r) in NamedFiles(slots);
    forall f ensures f in files <==> f in NamedFiles(after) {
      if f in NamedFiles(slots) && f in files {
        var a :| a in slots && slots[a].Image? && f == Stored(slots[a].req);
        assert a in after && after[a] == slots[a];
      }
      if f == Stored(r) { assert after[slot] == Image(r); }
    }
  }
}
