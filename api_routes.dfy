/** The default route of a registry endpoint: PROTOCOL://<server>/v2/<image><suffix>. */
module ApiRoutes {
  import opened RegistryTypes

  const PROTOCOL: string := "http"
  const API_BASE: string := "/v2/"

  /** Everything of a default route before the provider's suffix. */
  function RouteBase(serverUrl: string, imageName: string): string {
    PROTOCOL + "://" + serverUrl + API_BASE + imageName
  }

  /** The default URL of an endpoint whose provider gives suffix. */
  function ApiRoute(serverUrl: string, imageName: string, suffix: string): string {
    RouteBase(serverUrl, imageName) + suffix
  }

  /**
   * A default route is "http://", the server, "/v2/", the image name and the suffix, in
   * that order and with nothing else.
   */
  lemma ApiRouteShape(serverUrl: string, imageName: string, suffix: string)
    ensures var r := ApiRoute(serverUrl, imageName, suffix);
            |r| == 11 + |serverUrl| + |imageName| + |suffix| &&
            r[..7] == "http://" &&
            r[7..7 + |serverUrl|] == serverUrl &&
            r[7 + |serverUrl|..11 + |serverUrl|] == "/v2/" &&
            r[11 + |serverUrl|..11 + |serverUrl| + |imageName|] == imageName &&
            r[11 + |serverUrl| + |imageName|..] == suffix
  {
    assert ApiRoute(serverUrl, imageName, suffix) == "http://" + serverUrl + "/v2/" + imageName + suffix;
  }

  /** The suffix of a URL that lies under the image's route base, if it does. */
  function RouteSuffix(serverUrl: string, imageName: string, url: string): Option<string> {
    var base := RouteBase(serverUrl, imageName);
    if |base| <= |url| && url[..|base|] == base then Some(url[|base|..]) else None
  }

  /** Every default route lies under the route base and gives back its suffix. */
  lemma RouteSuffixOfApiRoute(serverUrl: string, imageName: string, suffix: string)
    ensures RouteSuffix(serverUrl, imageName, ApiRoute(serverUrl, imageName, suffix)) == Some(suffix)
  {
    var base := RouteBase(serverUrl, imageName);
    var url := ApiRoute(serverUrl, imageName, suffix);
    assert url == base + suffix;
    assert url[..|base|] == base;
    assert url[|base|..] == suffix;
  }

  /** A URL under the route base is the default route of its suffix. */
  lemma ApiRouteOfRouteSuffix(serverUrl: string, imageName: string, url: string, suffix: string)
    requires RouteSuffix(serverUrl, imageName, url) == Some(suffix)
    ensures ApiRoute(serverUrl, imageName, suffix) == url
  {
    var base := RouteBase(serverUrl, imageName);
    assert url == url[..|base|] + url[|base|..];
  }

  /** Distinct suffixes give distinct default routes. */
  lemma ApiRouteInjective(serverUrl: string, imageName: string, s1: string, s2: string)
    requires ApiRoute(serverUrl, imageName, s1) == ApiRoute(serverUrl, imageName, s2)
    ensures s1 == s2
  {
    RouteSuffixOfApiRoute(serverUrl, imageName, s1);
    RouteSuffixOfApiRoute(serverUrl, imageName, s2);
  }
}
