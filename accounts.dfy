/** The list of accounts an organisation-wide run visits (`get_all_accounts`): the ACTIVE
    members reported by the Organizations paginator or, when listing fails, the IDs the
    operator types as a comma-separated line. */
module Accounts {
  import opened Text

  /** One entry of a `list_accounts` page. */
  datatype OrgAccount = OrgAccount(id: string, status: string)

  /** Paging through `list_accounts`: every page, or a failure somewhere along the way
      (the IDs gathered before the failure are discarded). */
  datatype Listing = ListingFailed | Listed(pages: seq<seq<OrgAccount>>)

  const Active := "ACTIVE"

  /** The IDs of the ACTIVE accounts of one page, in page order. */
  function ActiveInPage(page: seq<OrgAccount>): seq<string>
  {
    if page == [] then []
    else
      var last := page[|page| - 1];
      ActiveInPage(page[..|page| - 1]) + (if last.status == Active then [last.id] else [])
  }

  /** The IDs of the ACTIVE accounts of all pages, in paginator order. */
  function ActiveIds(pages: seq<seq<OrgAccount>>): seq<string>
  {
    if pages == [] then [] else ActiveIds(pages[..|pages| - 1]) + ActiveInPage(pages[|pages| - 1])
  }

  lemma {:induction false} ActiveInPageMembers(page: seq<OrgAccount>, x: string)
    ensures x in ActiveInPage(page) <==> exists j :: 0 <= j < |page| && page[j].status == Active && page[j].id == x
  {
    if page != [] {
      var init := page[..|page| - 1];
      ActiveInPageMembers(init, x);
      assert forall j :: 0 <= j < |init| ==> init[j] == page[j];
    }
  }

  /** An ID is listed exactly when some page reports an ACTIVE account with that ID. */
  lemma {:induction false} ActiveIdsMembers(pages: seq<seq<OrgAccount>>, x: string)
    ensures x in ActiveIds(pages) <==>
      exists i, j :: 0 <= i < |pages| && 0 <= j < |pages[i]| && pages[i][j].status == Active && pages[i][j].id == x
  {
    if pages != [] {
      var init := pages[..|pages| - 1];
      ActiveIdsMembers(init, x);
      ActiveInPageMembers(pages[|pages| - 1], x);
      assert forall i :: 0 <= i < |init| ==> init[i] == pages[i];
      if x in ActiveInPage(pages[|pages| - 1]) {
        var j :| 0 <= j < |pages[|pages| - 1]| && pages[|pages| - 1][j].status == Active && pages[|pages| - 1][j].id == x;
        assert pages[|pages| - 1][j].id == x;
      }
    }
  }

  /** `[a.strip() for a in pieces if a.strip()]`. */
  function NonEmptyStripped(pieces: seq<string>): seq<string>
  {
    if pieces == [] then []
    else (if Strip(pieces[0]) != [] then [Strip(pieces[0])] else []) + NonEmptyStripped(pieces[1..])
  }

  /** The fallback: the typed line, stripped, split at commas, each piece stripped,
      empty pieces dropped. */
  function TypedAccountIds(typed: string): seq<string>
  {
    NonEmptyStripped(Split(Strip(typed), ','))
  }

  /** Every fallback ID is a non-empty stripped piece of the line between commas, and
      every such piece is kept. */
  lemma {:induction false} NonEmptyStrippedMembers(pieces: seq<string>, x: string)
    ensures x in NonEmptyStripped(pieces) <==> x != [] && exists p :: p in pieces && Strip(p) == x
  {
    if pieces != [] {
      NonEmptyStrippedMembers(pieces[1..], x);
      if x != [] && Strip(pieces[0]) != x {
        if p :| p in pieces && Strip(p) == x {
          assert p in pieces[1..];
        }
      }
    }
  }

  /** The fallback IDs are non-empty, contain no comma and have no white space at
      either end. */
  lemma TypedAccountIdsShape(typed: string, x: string)
    requires x in TypedAccountIds(typed)
    ensures x != [] && ',' !in x && !IsSpace(x[0]) && !IsSpace(x[|x| - 1])
  {
    var pieces := Split(Strip(typed), ',');
    NonEmptyStrippedMembers(pieces, x);
    var p :| p in pieces && Strip(p) == x;
    StripKeepsEnds(p);
    assert ',' !in p;
  }

  /** `get_all_accounts()`: the ACTIVE IDs in paginator order when listing succeeds, the
      typed fallback list otherwise. */
  method GetAllAccounts(listing: Listing, typed: string) returns (accounts: seq<string>)
    ensures listing.Listed? ==> accounts == ActiveIds(listing.pages)
    ensures listing.ListingFailed? ==> accounts == TypedAccountIds(typed)
  {
    match listing {
      case ListingFailed =>
        var ids := Strip(typed);
        accounts := NonEmptyStripped(Split(ids, ','));
      case Listed(pages) =>
        accounts := [];
        for i := 0 to |pages|
          invariant accounts == ActiveIds(pages[..i])
        {
          var page := pages[i];
          ghost var before := accounts;
          for j := 0 to |page|
            invariant accounts == before + ActiveInPage(page[..j])
          {
            var acct := page[j];
            if acct.status == Active {
              accounts := accounts + [acct.id];
            }
            assert page[..j + 1][..j] == page[..j];
          }
          assert page[..|page|] == page;
          assert pages[..i + 1][..i] == pages[..i];
        }
        assert pages[..|pages|] == pages;
    }
  }
}
