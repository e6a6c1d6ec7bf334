/**
 * The fetch rule shared by the Services and Service Providers pages. Each page fetches two lists
 * one after the other. A successful response supplies its list (or [] when that field is falsy);
 * an unsuccessful one gives that list's sample data. A thrown error replaces both lists with
 * samples and sets the page's error message.
 */
module ListFetch {
  import opened Wrappers
  import opened Js
  import opened AdminService

  /** What distinguishes one two-list page from the other: the field read from each response,
      each list's sample data and the message shown when a call throws. */
  datatype PageConfig = PageConfig(
    firstField: string, firstSample: seq<Entry>,
    secondField: string, secondSample: seq<Entry>,
    failure: string)

  /** The page state a fetch decides: both lists and the error banner. */
  datatype Lists = Lists(first: JsList<Entry>, second: JsList<Entry>, error: Option<string>)

  /** The query a fetch sends with the first request: `limit` 50 and the status filter. */
  datatype Query = Query(limit: nat, status: string)

  /** `resp && resp.success ? resp.<name> || [] : sample`. */
  function PickList(resp: Body, name: string, sample: seq<Entry>): (r: JsList<Entry>)
    ensures Succeeded(resp) ==> r == OrEmpty(Field(resp, name))
    ensures !Succeeded(resp) ==> r == Arr(sample)
  {
    if Succeeded(resp) then OrEmpty(Field(resp, name)) else Arr(sample)
  }

  /** The state after one fetch, from the two calls' outcomes and the error shown before it.
      When the first call throws, the second is never made and its outcome is ignored. */
  function AfterFetch(cfg: PageConfig, first: Call<Body>, second: Call<Body>, error: Option<string>): (r: Lists)
    ensures first.Threw? || second.Threw? ==>
      r == Lists(Arr(cfg.firstSample), Arr(cfg.secondSample), Some(cfg.failure))
  {
    match first
    case Threw(_) => Lists(Arr(cfg.firstSample), Arr(cfg.secondSample), Some(cfg.failure))
    case Returned(a) =>
      match second
      case Threw(_) => Lists(Arr(cfg.firstSample), Arr(cfg.secondSample), Some(cfg.failure))
      case Returned(b) =>
        Lists(PickList(a, cfg.firstField, cfg.firstSample), PickList(b, cfg.secondField, cfg.secondSample), error)
  }

  /** The error banner changes only through a thrown error, and then shows the page's failure
      message; a fetch whose calls both return never clears an earlier error. */
  lemma ErrorOnlyFromThrow(cfg: PageConfig, first: Call<Body>, second: Call<Body>, error: Option<string>)
    ensures var r := AfterFetch(cfg, first, second, error);
      r.error != error ==> (first.Threw? || second.Threw?) && r.error == Some(cfg.failure)
    ensures first.Returned? && second.Returned? ==> AfterFetch(cfg, first, second, error).error == error
  {
  }

  /** When both calls return, each list depends on its own response only: the two are handled
      independently, and a successful response shows the server's list (or [] when that field is
      falsy), never a sample; an unsuccessful one shows that list's sample. */
  lemma ListsIndependent(cfg: PageConfig, a: Body, b: Body, b': Body, e: Option<string>, e': Option<string>)
    ensures AfterFetch(cfg, Returned(a), Returned(b), e).first == AfterFetch(cfg, Returned(a), Returned(b'), e').first
    ensures AfterFetch(cfg, Returned(b), Returned(a), e).second == AfterFetch(cfg, Returned(b'), Returned(a), e').second
    ensures Succeeded(a) ==> AfterFetch(cfg, Returned(a), Returned(b), e).first == OrEmpty(Field(a, cfg.firstField))
    ensures !Succeeded(a) ==> AfterFetch(cfg, Returned(a), Returned(b), e).first == Arr(cfg.firstSample)
    ensures Succeeded(b) ==> AfterFetch(cfg, Returned(a), Returned(b), e).second == OrEmpty(Field(b, cfg.secondField))
    ensures !Succeeded(b) ==> AfterFetch(cfg, Returned(a), Returned(b), e).second == Arr(cfg.secondSample)
  {
  }

  /** The query sent when the status filter is `status`. */
  function FilterQuery(status: string): (q: Query)
    ensures q.limit == 50 && q.status == status
  {
    Query(50, status)
  }
}
