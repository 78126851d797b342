/** The elements of a query response, as the indexer sees them. */
module Records {

  /** One element of a response's `imdata` list, `{tag: {'attributes': attrs}}`.
      Every element carries exactly one class tag. */
  datatype Record = Record(tag: string, attrs: map<string, string>)

  /** Elements keyed 'error' are reported failures, not managed objects. */
  predicate IsError(r: Record) {
    r.tag == "error"
  }

  /** The distinguished name of a managed object. */
  function Dn(r: Record): string
    requires "dn" in r.attrs
  {
    r.attrs["dn"]
  }

  /** What indexing reads of each element (a missing key is a KeyError in
      the library): the dn, and also the role of a fabricNode. */
  predicate Indexable(r: Record) {
    IsError(r) || ("dn" in r.attrs && (r.tag == "fabricNode" ==> "role" in r.attrs))
  }

  predicate AllIndexable(rs: seq<Record>) {
    forall i :: 0 <= i < |rs| ==> Indexable(rs[i])
  }
}
