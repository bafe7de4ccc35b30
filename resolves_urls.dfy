/**
 * The `ResolvesUrls` trait: endpoint templates from the URL registry, with the
 * `{tenant}` placeholder replaced by the environment's tenant segment.
 */
module ResolvesUrls {
  import opened Json
  import opened Enums
  import opened Strings
  import opened Exceptions

  const Placeholder := "{tenant}"

  /** `getTenantId()`, and the segment `resolveUrl` substitutes. */
  function TenantId(env: Environment): (tenant: string)
    ensures tenant == "live" <==> env == LIVE
    ensures tenant == "test" <==> env == TEST
  {
    match env
    case LIVE => "live"
    case TEST => "test"
  }

  function NotFoundMessage(key: string): string {
    "URL configuration for '" + key + "' not found"
  }

  /**
   * `resolveUrl($key)` over the registry `config('payaza.urls')`. A missing or falsy
   * entry is an InvalidArgumentException; a truthy entry that is not a string cannot
   * reach the `string` result under strict types.
   */
  function ResolveUrl(urls: map<string, Json>, key: string, env: Environment): (r: Result<string>)
    ensures r == Err(InvalidArgument(NotFoundMessage(key))) <==> key !in urls || !Truthy(urls[key])
    ensures r.Ok? <==> key in urls && urls[key].JStr? && Truthy(urls[key])
    ensures key in urls && Truthy(urls[key]) && !urls[key].JStr? ==> r == Err(TypeError)
  {
    if key !in urls || !Truthy(urls[key]) then Err(InvalidArgument(NotFoundMessage(key)))
    else match urls[key]
      case JStr(template) => Ok(ReplaceAll(template, Placeholder, TenantId(env)))
      case _ => Err(TypeError)
  }

  /** A resolved URL never contains the placeholder. */
  lemma ResolvedUrlHasNoPlaceholder(urls: map<string, Json>, key: string, env: Environment)
    requires ResolveUrl(urls, key, env).Ok?
    ensures !Occurs(ResolveUrl(urls, key, env).value, Placeholder)
  {
    NoPlaceholderLeft(urls[key].s, TenantId(env));
  }

  /** Neither tenant segment can begin the text that follows the placeholder's opening brace. */
  lemma TenantDoesNotStartTail(tenant: string, rest: string, k: nat)
    requires tenant == "live" || tenant == "test"
    requires 1 <= k < |Placeholder|
    ensures !StartsWith(tenant + rest, Placeholder[k..])
  {
    var s, u := tenant + rest, Placeholder[k..];
    assert s[0] == tenant[0] && s[1] == tenant[1] && s[2] == tenant[2];
    assert u[0] == Placeholder[k];
    if tenant == "live" || k !in {1, 6} {
      assert Placeholder[k] != tenant[0] by {
        assert k in {1, 2, 3, 4, 5, 6, 7};
      }
      Mismatch(s, u, 0);
    } else if k == 1 {
      Mismatch(s, u, 2);
    } else {
      Mismatch(s, u, 1);
    }
  }

  /**
   * If the result of replacing starts with a tail of the placeholder (the text after
   * its opening brace, or less), so did the subject.
   */
  lemma {:induction false} TailSurvivesReplacement(y: string, k: nat, tenant: string)
    requires tenant == "live" || tenant == "test"
    requires 1 <= k <= |Placeholder|
    ensures StartsWith(ReplaceAll(y, Placeholder, tenant), Placeholder[k..]) ==> StartsWith(y, Placeholder[k..])
    decreases |y|
  {
    var r := ReplaceAll(y, Placeholder, tenant);
    if k == |Placeholder| || |y| < |Placeholder| {
      assert Placeholder[k..] == [] || r == y;
    } else if StartsWith(y, Placeholder) {
      assert r == tenant + ReplaceAll(y[|Placeholder|..], Placeholder, tenant);
      TenantDoesNotStartTail(tenant, ReplaceAll(y[|Placeholder|..], Placeholder, tenant), k);
    } else {
      var rest := ReplaceAll(y[1..], Placeholder, tenant);
      assert r == [y[0]] + rest;
      assert r[1..] == rest;
      assert Placeholder[k..][1..] == Placeholder[k + 1..];
      StartsWithCons(r, Placeholder[k..]);
      StartsWithCons(y, Placeholder[k..]);
      TailSurvivesReplacement(y[1..], k + 1, tenant);
    }
  }

  /** Every `{tenant}` is replaced, and the tenant segment creates no new one. */
  lemma {:induction false} NoPlaceholderLeft(s: string, tenant: string)
    requires tenant == "live" || tenant == "test"
    ensures !Occurs(ReplaceAll(s, Placeholder, tenant), Placeholder)
    decreases |s|
  {
    var r := ReplaceAll(s, Placeholder, tenant);
    var n := |Placeholder|;
    if |s| < n {
      forall i | 0 <= i <= |r| ensures !StartsWith(r[i..], Placeholder) {
      }
    } else if StartsWith(s, Placeholder) {
      var rest := ReplaceAll(s[n..], Placeholder, tenant);
      assert r == tenant + rest;
      NoPlaceholderLeft(s[n..], tenant);
      forall i | 0 <= i <= |r| ensures !StartsWith(r[i..], Placeholder) {
        if i >= |tenant| {
          assert r[i..] == rest[i - |tenant|..];
        } else {
          assert r[i..][0] == tenant[i] != '{';
          Mismatch(r[i..], Placeholder, 0);
        }
      }
    } else {
      var rest := ReplaceAll(s[1..], Placeholder, tenant);
      assert r == [s[0]] + rest;
      NoPlaceholderLeft(s[1..], tenant);
      forall i | 0 <= i <= |r| ensures !StartsWith(r[i..], Placeholder) {
        if i >= 1 {
          assert r[i..] == rest[i - 1..];
        } else {
          assert r[1..] == rest;
          StartsWithCons(r, Placeholder);
          StartsWithCons(s, Placeholder);
          TailSurvivesReplacement(s[1..], 1, tenant);
        }
      }
    }
  }

  /** A template without the placeholder is returned unchanged. */
  lemma UnchangedWithoutPlaceholder(urls: map<string, Json>, key: string, env: Environment)
    requires key in urls && urls[key].JStr? && Truthy(urls[key])
    requires !Occurs(urls[key].s, Placeholder)
    ensures ResolveUrl(urls, key, env) == Ok(urls[key].s)
  {
    ReplaceAllWithoutOccurrence(urls[key].s, Placeholder, TenantId(env));
  }

  /** Resolving the resolved URL again, as a template, gives the same URL. */
  lemma ResolveIdempotent(urls: map<string, Json>, key: string, env: Environment)
    requires ResolveUrl(urls, key, env).Ok?
    ensures var url := ResolveUrl(urls, key, env).value;
      url != "" && url != "0" ==> ResolveUrl(urls[key := JStr(url)], key, env) == Ok(url)
  {
    var url := ResolveUrl(urls, key, env).value;
    ResolvedUrlHasNoPlaceholder(urls, key, env);
    ReplaceAllWithoutOccurrence(url, Placeholder, TenantId(env));
  }

  /** A template with one placeholder between brace-free text resolves to that text around the tenant. */
  lemma {:induction false} SubstituteSinglePlaceholder(before: string, after: string, env: Environment)
    requires '{' !in before && '{' !in after
    ensures ReplaceAll(before + Placeholder + after, Placeholder, TenantId(env))
         == before + TenantId(env) + after
  {
    var tenant := TenantId(env);
    assert before + Placeholder + after == before + (Placeholder + after);
    ReplaceAllFreePrefix(before, Placeholder + after, Placeholder, tenant);
    ReplaceAllLeading(Placeholder, after, tenant);
    ReplaceAllFreePrefix(after, "", Placeholder, tenant);
    assert after + "" == after;
  }

  /** A registry entry with one placeholder between brace-free text resolves to that text around the tenant. */
  lemma ResolveSinglePlaceholder(urls: map<string, Json>, key: string, env: Environment, before: string, after: string)
    requires key in urls && urls[key] == JStr(before + Placeholder + after)
    requires '{' !in before && '{' !in after
    ensures ResolveUrl(urls, key, env) == Ok(before + TenantId(env) + after)
  {
    assert Truthy(urls[key]) by {
      assert |before + Placeholder + after| >= |Placeholder|;
    }
    SubstituteSinglePlaceholder(before, after, env);
  }

  /** Host and path of the `payout_send` entry in the registry the SDK's unit tests configure. */
  const PayazaHost := "https://api.payaza.africa/"
  const PayoutSendPath := "/payout-receptor/payout"

  /** That `payout_send` entry (host, placeholder, path) resolves under TEST to host + "test" + path. */
  lemma FixturePayoutSend(urls: map<string, Json>)
    requires "payout_send" in urls
    requires urls["payout_send"] == JStr(PayazaHost + Placeholder + PayoutSendPath)
    ensures ResolveUrl(urls, "payout_send", TEST) == Ok(PayazaHost + "test" + PayoutSendPath)
  {
    assert '{' !in PayazaHost;
    assert '{' !in PayoutSendPath;
    ResolveSinglePlaceholder(urls, "payout_send", TEST, PayazaHost, PayoutSendPath);
  }

  /** A registry entry free of braces resolves to itself. */
  lemma ResolveBraceFree(urls: map<string, Json>, key: string, env: Environment, template: string)
    requires key in urls && urls[key] == JStr(template) && Truthy(urls[key])
    requires '{' !in template
    ensures ResolveUrl(urls, key, env) == Ok(template)
  {
    ReplaceAllFreePrefix(template, "", Placeholder, TenantId(env));
    assert template + "" == template;
  }

  /** The `card_charge_3ds` entry of the same registry has no placeholder and resolves to itself. */
  lemma FixtureCardCharge3ds(urls: map<string, Json>, env: Environment)
    requires "card_charge_3ds" in urls
    requires urls["card_charge_3ds"] == JStr("https://cards-live.78financials.com/card_charge/")
    ensures ResolveUrl(urls, "card_charge_3ds", env) == Ok("https://cards-live.78financials.com/card_charge/")
  {
    var host, path := "https://cards-live.78financials.com/", "card_charge/";
    assert '{' !in host && '{' !in path;
    assert host + path == "https://cards-live.78financials.com/card_charge/";
    ResolveBraceFree(urls, "card_charge_3ds", env, host + path);
  }
}
