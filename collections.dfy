/**
 * collections.py: the `Collections` class of eurobase.py line for line,
 * except that `__build_url` hands the URL to requests.py's builder, whose
 * unknown-protocol error is a NameError. The class is Eurobase's over
 * that builder.
 */
module CollectionsDraft {
  import opened Python
  import opened UrlCore
  import opened FileStore
  import opened Drafts
  import Eurobase
  import Requests

  /** The builder collections.py's `__build_url` calls. */
  const Builder: Dialect := Requests.Builder

  /** `Collections(**kwargs)`: the setter keywords applied over the defaults, on requests.py's builder. */
  method Open(kw: Kwargs, host: Platform) returns (c: Eurobase.Collections)
    ensures fresh(c) && c.builder == Builder && c.State() == Eurobase.Opened(kw, host)
  {
    c := Eurobase.Collections.Open(Builder, kw, host);
  }

  /**
   * `setURL` of the two drafts: from the same keywords both build the same
   * URL or fail the same way, except on an unknown protocol, which
   * collections.py reports as a NameError and eurobase.py as its own error.
   */
  lemma SetUrlAsEurobase(kw: Kwargs)
    ensures var a := BuildUrlSortLast(Builder, kw);
      var b := BuildUrlSortLast(Eurobase.RequestBuilder, kw);
      (a == b || (a == Err(NameError) && b == Err(EurobaseError("web protocol not recognised"))))
      && (a == Err(NameError) <==> b == Err(EurobaseError("web protocol not recognised")))
  {
    var a := BuildUrlSortLast(Builder, kw);
    var b := BuildUrlSortLast(Eurobase.RequestBuilder, kw);
    if kw != [] && Has(kw, "domain") && InStrs(LangArg(kw), LANGS) && IsInt(SortLastValue(kw)) {
      var domain := Get(kw, "domain", PNone);
      var args := SortLastArgs(kw);
      if domain.PStr? {
        Eurobase.SameAsRequests(domain.s, args);
        if InStrs(Protocol(args), PROTOCOLS) {
          assert UrlCore.BuildUrl(Builder, domain, args) == UrlCore.BuildUrl(Eurobase.RequestBuilder, domain, args);
        } else {
          assert a == Err(NameError);
          assert b == Err(EurobaseError("web protocol not recognised"));
        }
      } else {
        assert a == Err(AttributeError) == b;
      }
    }
  }
}
