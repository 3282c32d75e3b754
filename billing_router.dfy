/** `billing.getBill`: picks one of four fixed line-item lists by looking for customer
    names in the stored filename, and points at the generated PDF. The four lists are
    opaque constants here. */
module BillingRouter {

  import opened Common
  import opened Text
  import Trpc
  import Worker

  /** `MOCK_BILL_ITEMS_DEFAULT`, `_MUELLER`, `_SCHMIDT` and `_MALLORCA`. */
  datatype ItemList = DefaultItems | MuellerItems | SchmidtItems | MallorcaItems

  datatype Bill = Bill(items: ItemList, documentUrl: string)

  /** `metadata?.filename || ""`. */
  function FilenameFor(registry: map<string, Worker.Metadata>, fileId: string): (filename: string)
    ensures fileId !in registry ==> filename == ""
    ensures fileId in registry ==> filename == registry[fileId].filename
  {
    match Worker.Lookup(registry, fileId)
    case None => ""
    case Some(m) => if m.filename != "" then m.filename else ""
  }

  /** The three `if (filename.includes(...)) items = ...` statements in order: a later
      match overrides an earlier one, so Mallorca beats Schmidt beats Müller, and a name
      with none of them keeps the default list. */
  function SelectItems(filename: string): (items: ItemList)
    ensures items == MallorcaItems <==> Includes(filename, "Mallorca")
    ensures items == SchmidtItems <==> Includes(filename, "Schmidt") && !Includes(filename, "Mallorca")
    ensures items == MuellerItems <==>
              Includes(filename, "Müller") && !Includes(filename, "Schmidt") && !Includes(filename, "Mallorca")
    ensures items == DefaultItems <==>
              !Includes(filename, "Müller") && !Includes(filename, "Schmidt") && !Includes(filename, "Mallorca")
  {
    var items0 := DefaultItems;
    var items1 := if Includes(filename, "Müller") then MuellerItems else items0;
    var items2 := if Includes(filename, "Schmidt") then SchmidtItems else items1;
    var items3 := if Includes(filename, "Mallorca") then MallorcaItems else items2;
    items3
  }

  /** `http://localhost:3001/api/documents/<fileId>/pdf`. */
  function DocumentUrl(fileId: string): (url: string)
    ensures |url| == |fileId| + 40
    ensures StartsWith(url, "http://localhost:3001/api/documents/") && EndsWith(url, "/pdf")
    ensures url[36..|url| - 4] == fileId
  {
    "http://localhost:3001/api/documents/" + fileId + "/pdf"
  }

  /** The query behind the guard. It only reads the registry. */
  function GetBill(ctx: Trpc.Context, registry: map<string, Worker.Metadata>, fileId: string): (r: Result<Bill, string>)
    ensures Trpc.ProtectedProcedure(ctx).Failure? <==> r == Failure(Trpc.Unauthorized)
    ensures r.Success? ==> r.value.items == SelectItems(FilenameFor(registry, fileId))
    ensures r.Success? ==> r.value.documentUrl == DocumentUrl(fileId)
  {
    if Trpc.ProtectedProcedure(ctx).Failure? then Failure(Trpc.Unauthorized)
    else Success(Bill(SelectItems(FilenameFor(registry, fileId)), DocumentUrl(fileId)))
  }

  /** A file id that was never registered is billed with the default list. */
  lemma UnknownFileGetsDefault(ctx: Trpc.Context, registry: map<string, Worker.Metadata>, fileId: string)
    requires fileId !in registry && Trpc.ProtectedProcedure(ctx).Success?
    ensures GetBill(ctx, registry, fileId) == Success(Bill(DefaultItems, DocumentUrl(fileId)))
  {
    FirstCharAbsent("", "Müller");
    FirstCharAbsent("", "Schmidt");
    FirstCharAbsent("", "Mallorca");
  }

  /** `includes` finds a name wherever it stands in the filename. */
  lemma IncludesInMiddle(a: string, name: string, b: string)
    ensures Includes(a + name + b, name)
  {
    var s := a + name + b;
    assert s[|a|..|a| + |name|] == name;
    assert OccursAt(s, name, |a|);
    IncludesIff(s, name);
  }

  /** Mallorca anywhere in the name wins, whatever else the name contains. */
  lemma MallorcaWins(a: string, b: string)
    ensures SelectItems(a + "Mallorca" + b) == MallorcaItems
  {
    IncludesInMiddle(a, "Mallorca", b);
  }

  /** Schmidt anywhere in the name wins over Müller, unless Mallorca occurs too. */
  lemma SchmidtBeatsMueller(a: string, b: string)
    requires !Includes(a + "Schmidt" + b, "Mallorca")
    ensures SelectItems(a + "Schmidt" + b) == SchmidtItems
  {
    IncludesInMiddle(a, "Schmidt", b);
  }

  /** Müller anywhere in the name selects the Müller list when neither other name occurs:
      the test is for a substring, not for equality. */
  lemma MuellerAnywhere(a: string, b: string)
    requires !Includes(a + "Müller" + b, "Schmidt") && !Includes(a + "Müller" + b, "Mallorca")
    ensures SelectItems(a + "Müller" + b) == MuellerItems
  {
    IncludesInMiddle(a, "Müller", b);
  }

  /** Matching is case-sensitive: a filename without a capital M or S (such as
      "mallorca.pdf" or "schmidt.pdf") gets the default list. */
  lemma CaseSensitiveMatch(filename: string)
    requires 'M' !in filename && 'S' !in filename
    ensures SelectItems(filename) == DefaultItems
  {
    FirstCharAbsent(filename, "Müller");
    FirstCharAbsent(filename, "Schmidt");
    FirstCharAbsent(filename, "Mallorca");
  }
}
