/** The caching resolver of the jprq base domain, and the URL built from it. */
module DomainResolver {
  import opened Prelude

  /** What fetching the remote configuration would yield; `domain` is None when the body
      does not decode. */
  datatype Fetch = NoReply | Reply(status: int, domain: Option<string>)

  function FetchedDomain(f: Fetch): Option<string> {
    if f.Reply? && f.status == 200 && f.domain.Some? && f.domain.value != "" then f.domain else None
  }

  /** The answer given and the cache left behind. */
  function ResolveDomain(domainOverride: string, cached: string, fetch: Fetch): (Option<string>, string) {
    if domainOverride != "" then (Some(domainOverride), cached)
    else if cached != "" then (Some(cached), cached)
    else match FetchedDomain(fetch)
      case None => (None, cached)
      case Some(d) => (Some(d), d)
  }

  /** The only domain this process can still answer with, once it has one. */
  function KnownDomain(domainOverride: string, cached: string): string {
    if domainOverride != "" then domainOverride else cached
  }

  function UrlFor(subdomain: string, domain: string): string {
    "https://" + subdomain + "." + domain
  }

  class Resolver {
    const domainOverride: string
    var cached: string

    constructor (domainOverride: string)
      ensures this.domainOverride == domainOverride && cached == ""
    {
      this.domainOverride := domainOverride;
      cached := "";
    }

    method Domain(fetch: Fetch) returns (domain: Option<string>)
      modifies this`cached
      ensures (domain, cached) == ResolveDomain(domainOverride, old(cached), fetch)
    {
      if domainOverride != "" {
        return Some(domainOverride);
      }
      if cached != "" {
        return Some(cached);
      }
      if fetch.NoReply? {
        return None;
      }
      if fetch.status != 200 {
        return None;
      }
      if fetch.domain.None? {
        return None;
      }
      if fetch.domain.value == "" {
        return None;
      }
      cached := fetch.domain.value;
      return Some(cached);
    }
  }

  /** The answers of one process to a list of fetch outcomes, one call after another. */
  function Answers(domainOverride: string, cached: string, fetches: seq<Fetch>): seq<Option<string>>
    decreases |fetches|
  {
    if fetches == [] then []
    else
      var (answer, next) := ResolveDomain(domainOverride, cached, fetches[0]);
      [answer] + Answers(domainOverride, next, fetches[1..])
  }

  lemma {:induction false} WarmAnswers(domainOverride: string, cached: string, fetches: seq<Fetch>)
    requires KnownDomain(domainOverride, cached) != ""
    ensures |Answers(domainOverride, cached, fetches)| == |fetches|
    ensures forall i :: 0 <= i < |fetches| ==>
      Answers(domainOverride, cached, fetches)[i] == Some(KnownDomain(domainOverride, cached))
  {
    if fetches != [] {
      WarmAnswers(domainOverride, cached, fetches[1..]);
    }
  }

  /** A process answers with at most one domain: nothing before the first success, and the
      same value at every call from then on, whatever later fetches would have returned. */
  lemma {:induction false} OneDomainPerProcess(domainOverride: string, fetches: seq<Fetch>, i: nat, j: nat)
    requires i <= j < |fetches|
    ensures |Answers(domainOverride, "", fetches)| == |fetches|
    ensures var a := Answers(domainOverride, "", fetches);
      && (a[i].Some? ==> a[j] == a[i])
      && (a[j].None? <==> domainOverride == "" && forall k :: 0 <= k <= j ==> FetchedDomain(fetches[k]).None?)
  {
    var (answer, next) := ResolveDomain(domainOverride, "", fetches[0]);
    var rest := Answers(domainOverride, next, fetches[1..]);
    if answer.Some? {
      assert domainOverride != "" || FetchedDomain(fetches[0]).Some?;
      WarmAnswers(domainOverride, next, fetches[1..]);
      assert KnownDomain(domainOverride, next) == answer.value;
    } else if j > 0 {
      OneDomainPerProcess(domainOverride, fetches[1..], if i == 0 then 0 else i - 1, j - 1);
      assert forall k :: 0 <= k <= j - 1 ==> fetches[1..][k] == fetches[k + 1];
      if FetchedDomain(fetches[0]).None? && forall k :: 0 <= k <= j - 1 ==> FetchedDomain(fetches[1..][k]).None? {
        forall k | 0 <= k <= j ensures FetchedDomain(fetches[k]).None? {
          if k > 0 { assert FetchedDomain(fetches[1..][k - 1]).None?; }
        }
      }
      if forall k :: 0 <= k <= j ==> FetchedDomain(fetches[k]).None? {
        forall k | 0 <= k <= j - 1 ensures FetchedDomain(fetches[1..][k]).None? {
          assert FetchedDomain(fetches[k + 1]).None?;
        }
      }
    } else if |fetches| > 1 {
      OneDomainPerProcess(domainOverride, fetches[1..], 0, 0);
    }
  }
}
