/** The supplier list: persisted supplier documents, cleaned of undefined
    properties before each write, and the cached `suppliers` list. */
module SuppliersStore {
  import opened Wrappers
  import opened Types
  import opened Lists
  import opened Records
  import opened ErrorHandler

  /** A supplier as an object; an absent property reads as `undefined`. */
  function SupplierObject(s: Supplier): Object {
    [Property("supplierID", Text(s.supplierID)),
     Property("name", if s.name.Some? then Text(s.name.value) else Undefined),
     Property("contactInfo", if s.contactInfo.Some? then Text(s.contactInfo.value) else Undefined)]
  }

  /** A supplier object has each property once. */
  lemma SupplierObjectDistinct(s: Supplier)
    ensures DistinctKeys(SupplierObject(s))
  {
  }

  /** The document written for a supplier holds exactly its defined
      properties: the ID always, the name and the contact details exactly
      when they are present, and nothing else. */
  lemma SupplierDocumentFields(s: Supplier)
    ensures var d := Defined(SupplierObject(s));
            d.Keys <= {"supplierID", "name", "contactInfo"} &&
            "supplierID" in d && d["supplierID"] == Text(s.supplierID) &&
            ("name" in d <==> s.name.Some?) && (s.name.Some? ==> d["name"] == Text(s.name.value)) &&
            ("contactInfo" in d <==> s.contactInfo.Some?) &&
            (s.contactInfo.Some? ==> d["contactInfo"] == Text(s.contactInfo.value))
  {
    var o := SupplierObject(s);
    SupplierObjectDistinct(s);
    assert o[0].key == "supplierID" && o[1].key == "name" && o[2].key == "contactInfo";
    assert Keys(o) == {"supplierID", "name", "contactInfo"};
  }

  /** The cached list after `updateSupplier`: every supplier with the ID is
      replaced by the new record, the others stay in place. */
  function ReplaceSupplier(suppliers: seq<Supplier>, supplier: Supplier): (r: seq<Supplier>)
    ensures |r| == |suppliers|
    ensures forall i :: 0 <= i < |suppliers| ==>
              r[i] == if suppliers[i].supplierID == supplier.supplierID then supplier else suppliers[i]
  {
    Map(suppliers, (s: Supplier) => if s.supplierID == supplier.supplierID then supplier else s)
  }

  /** The cached list after `deleteSupplier`: the suppliers without the ID,
      in their order. */
  function RemoveSupplier(suppliers: seq<Supplier>, supplierID: string): (r: seq<Supplier>)
    ensures forall i :: 0 <= i < |r| ==> r[i].supplierID != supplierID
    ensures forall i :: 0 <= i < |suppliers| && suppliers[i].supplierID != supplierID ==> suppliers[i] in r
  {
    Filter(suppliers, (s: Supplier) => s.supplierID != supplierID)
  }

  /** Deleting keeps the order of the suppliers that stay: removing from
      two lists one after the other is removing from their concatenation. */
  lemma RemoveKeepsOrder(a: seq<Supplier>, b: seq<Supplier>, supplierID: string)
    ensures RemoveSupplier(a + b, supplierID) == RemoveSupplier(a, supplierID) + RemoveSupplier(b, supplierID)
  {
    FilterAppend(a, b, (s: Supplier) => s.supplierID != supplierID);
  }

  /** Every stored supplier document sits under its own ID. */
  predicate SupplierDocumentsKeyed(records: map<string, Document>) {
    forall k :: k in records ==> "supplierID" in records[k] && records[k]["supplierID"] == Text(k)
  }

  /** Storing a supplier's document under its ID keeps every document
      under its own ID. */
  lemma StoreKeepsKeyed(records: map<string, Document>, s: Supplier)
    requires SupplierDocumentsKeyed(records)
    ensures SupplierDocumentsKeyed(records[s.supplierID := Defined(SupplierObject(s))])
  {
    SupplierDocumentFields(s);
  }

  /** The store: persisted supplier documents, the cached list and the
      last error shown. */
  class SupplierList {
    var records: map<string, Document>
    var suppliers: seq<Supplier>
    var error: Option<string>

    /** Every record sits under its own ID, and none under the empty key:
        a generated key is never empty, so a lookup by key never finds a
        key that reads as false. */
    predicate Valid()
      reads this
    {
      SupplierDocumentsKeyed(records) && "" !in records
    }

    constructor()
      ensures records == map[] && suppliers == [] && error == None && Valid()
    {
      records := map[];
      suppliers := [];
      error := None;
    }

    /** `addSupplier`: `write` is how the storage write ends. When it
        fails, nothing is stored, the list is unchanged, the sanitised
        message is recorded and the failure is passed on. Otherwise the
        cleaned supplier is stored under its ID (or a fresh key that
        becomes its ID) and the supplier, as given, is appended. */
    method AddSupplier(supplier: Supplier, freshKey: string, write: Outcome<Thrown>) returns (outcome: Outcome<Thrown>)
      requires Valid() && freshKey != ""
      modifies this
      ensures Valid() && outcome == write
      ensures write.Fail? ==>
                records == old(records) && suppliers == old(suppliers) && error == Some(SanitizeError(write.error))
      ensures write.Pass? ==>
                var key := StorageKey(supplier.supplierID, freshKey);
                records == old(records)[key := Defined(SupplierObject(supplier.(supplierID := key)))] &&
                suppliers == old(suppliers) + [supplier] && error == old(error)
    {
      if write.Fail? {
        error := Some(SanitizeError(write.error));
        return write;
      }
      var key := StorageKey(supplier.supplierID, freshKey);
      var stored := supplier.(supplierID := key);
      SupplierObjectDistinct(stored);
      StoreKeepsKeyed(records, stored);
      var cleaned := RemoveUndefined(SupplierObject(stored));
      records := records[key := cleaned];
      suppliers := suppliers + [supplier];
      outcome := Pass;
    }

    /** `updateSupplier`: nothing when no stored document carries the ID;
        otherwise the cleaned supplier replaces the document and every
        cached supplier with the ID. */
    method UpdateSupplier(supplier: Supplier)
      requires Valid()
      modifies this
      ensures Valid() && error == old(error)
      ensures supplier.supplierID !in old(records) ==> records == old(records) && suppliers == old(suppliers)
      ensures supplier.supplierID in old(records) ==>
                records == old(records)[supplier.supplierID := Defined(SupplierObject(supplier))] &&
                suppliers == ReplaceSupplier(old(suppliers), supplier)
    {
      if supplier.supplierID in records {
        SupplierObjectDistinct(supplier);
        StoreKeepsKeyed(records, supplier);
        var cleanedSupplier := RemoveUndefined(SupplierObject(supplier));
        records := records[supplier.supplierID := cleanedSupplier];
        suppliers := ReplaceSupplier(suppliers, supplier);
      }
    }

    /** `deleteSupplier`: nothing when no stored document carries the ID;
        otherwise the document goes and so does every cached supplier with
        the ID. */
    method DeleteSupplier(supplierID: string)
      requires Valid()
      modifies this
      ensures Valid() && error == old(error)
      ensures supplierID !in old(records) ==> records == old(records) && suppliers == old(suppliers)
      ensures supplierID in old(records) ==>
                records == old(records) - {supplierID} && suppliers == RemoveSupplier(old(suppliers), supplierID)
    {
      if supplierID in records {
        records := records - {supplierID};
        suppliers := RemoveSupplier(suppliers, supplierID);
      }
    }
  }
}
