/** The idempotency boundary of job creation (app/core/idempotency.py). SHA-256 is taken to be
    injective, so the stored hash is modelled by the string that is hashed. */
module Idempotency {

  function BuildScope(userId: string, clientJobId: string): string {
    userId + ":" + clientJobId
  }

  /** Two pairs whose client ids contain no ':' never share a scope. The version 2 contract makes
      every client id a UUID. */
  lemma ScopeInjectiveOnColonFreeClients(u: string, c: string, u': string, c': string)
    requires ':' !in c && ':' !in c'
    requires BuildScope(u, c) == BuildScope(u', c')
    ensures u == u' && c == c'
  {
    var s := BuildScope(u, c);
    assert s[|u|] == ':' && s[|u'|] == ':';
    assert forall k :: |u| < k < |s| ==> s[k] == c[k - |u| - 1] && s[k] in c;
    assert forall k :: |u'| < k < |s| ==> s[k] == c'[k - |u'| - 1] && s[k] in c';
    assert |u| == |u'|;
    assert u == s[..|u|] && u' == s[..|u'|];
    assert c == s[|u| + 1..] && c' == s[|u'| + 1..];
  }

  /** A pair owns its scope among all pairs exactly when neither part contains a ':'. */
  lemma ScopeExclusiveIff(u: string, c: string)
    ensures (forall u', c' :: BuildScope(u', c') == BuildScope(u, c) ==> u' == u && c' == c)
            <==> ':' !in u && ':' !in c
  {
    var s := BuildScope(u, c);
    if ':' in u {
      var k :| 0 <= k < |u| && u[k] == ':';
      assert BuildScope(u[..k], u[k + 1..] + ":" + c) == s;
    } else if ':' in c {
      var k :| 0 <= k < |c| && c[k] == ':';
      assert BuildScope(u + ":" + c[..k], c[k + 1..]) == s;
    } else {
      forall u', c' | BuildScope(u', c') == s
        ensures u' == u && c' == c
      {
        OnlyOneColon(u, c, u', c');
      }
    }
  }

  lemma OnlyOneColon(u: string, c: string, u': string, c': string)
    requires ':' !in u && ':' !in c && BuildScope(u', c') == BuildScope(u, c)
    ensures u' == u && c' == c
  {
    var s := BuildScope(u, c);
    assert s[|u'|] == ':';
    assert forall k :: 0 <= k < |u| ==> s[k] == u[k] && s[k] in u;
    assert forall k :: |u| < k < |s| ==> s[k] == c[k - |u| - 1] && s[k] in c;
    assert |u'| == |u|;
    assert u == s[..|u|] && u' == s[..|u'|];
    assert c == s[|u| + 1..] && c' == s[|u'| + 1..];
  }
}
