/** Where the two clients of the component meet: the consent URLs each
    variant builds for the same inputs. */
module Agreement {
  import opened Credentials
  import opened UrlText
  import PromiseComponent
  import CallbackComponent

  /** The promise variant's `getAuthorizeURL` is the callback variant's
      `_getAuthorizeURL` for the same code, with `auth_type` appended. */
  lemma LoginUrlsAgree(component: CallbackComponent.Component, redirectURI: string,
                       authType: PromiseComponent.AuthType, preAuthCode: string)
    ensures PromiseComponent.GetAuthorizeURL(component.appid, redirectURI, authType, Success(preAuthCode))
            == Success(component.LoginUrl(preAuthCode, redirectURI) + "&auth_type=" + PromiseComponent.AuthTypeText(authType))
  {
  }

  /** The five parameters of the web-authorization consent URL, in the order
      both variants write them. */
  function BaseParams(authorizerAppid: string, redirectURI: string, scope: Option<string>, state: Option<string>): seq<Param>
  {
    [Param("appid", authorizerAppid), Param("redirect_uri", redirectURI), Param("response_type", "code"),
     Param("scope", if scope.Some? then scope.value else "snsapi_base"),
     Param("state", if state.Some? then state.value else "")]
  }

  /** Inserting before the fragment of a URL with no earlier `#` appends to
      its query. */
  lemma InsertBeforeFragment(head: string, text: string, fragment: string)
    requires |fragment| > 0 && fragment[0] == '#' && '#' !in head
    ensures ReplaceFirst(head + fragment, fragment, text + fragment) == head + text + fragment
  {
    FirstOccurrenceAfter(head, fragment, "");
    assert head + fragment + "" == head + fragment;
    InsertBeforeFirst(head + fragment, fragment, text);
    assert (head + fragment)[..|head|] == head;
    assert (head + fragment)[|head|..] == fragment;
  }

  /** No `#` precedes the fragment of a consent URL with clean values. */
  lemma BaseQueryLacksHash(authorizerAppid: string, redirectURI: string, scope: Option<string>, state: Option<string>)
    requires Clean(authorizerAppid) && Clean(redirectURI)
    requires scope.Some? ==> Clean(scope.value)
    requires state.Some? ==> Clean(state.value)
    ensures '#' !in OAuthPage + "?" + Encode(BaseParams(authorizerAppid, redirectURI, scope, state))
  {
    var base := BaseParams(authorizerAppid, redirectURI, scope, state);
    var all := PromiseComponent.OAuthParams("", authorizerAppid, redirectURI, scope, state);
    PromiseComponent.OAuthParamsPlain("", authorizerAppid, redirectURI, scope, state);
    forall i | 0 <= i < |base| ensures '#' !in base[i].key && '#' !in base[i].value {
      assert base[i] == all[i];
      assert Plain(all[i]);
    }
    EncodeLacks(base, '#');
    OAuthPageMarks();
  }

  /** Fed the consent URL an OAuth library builds for the authorizer (the same
      five parameters, then `#wechat_redirect`), the callback variant's
      rewrite gives exactly the promise variant's `getOAuthAuthorizeURL`, as
      long as no value carries `&` or `#`. */
  lemma OAuthUrlsAgree(client: CallbackComponent.OAuthClient, redirectURI: string,
                       scope: Option<string>, state: Option<string>)
    requires Clean(client.appid)
    requires Clean(redirectURI)
    requires scope.Some? ==> Clean(scope.value)
    requires state.Some? ==> Clean(state.value)
    ensures CallbackComponent.AuthorizeURL(client,
              OAuthPage + "?" + Encode(BaseParams(client.appid, redirectURI, scope, state)) + WechatRedirect)
            == PromiseComponent.GetOAuthAuthorizeURL(client.componentAppid, client.appid, redirectURI, scope, state)
  {
    var base := BaseParams(client.appid, redirectURI, scope, state);
    var p := Param("component_appid", client.componentAppid);
    BaseQueryLacksHash(client.appid, redirectURI, scope, state);
    OAuthParamsExtendBase(client.componentAppid, client.appid, redirectURI, scope, state);
    ComponentField(client.componentAppid);
    RewriteAppendsParam(OAuthPage + "?", base, p, "&component_appid=" + client.componentAppid, WechatRedirect);
    PromiseComponent.OAuthUrlShape(client.componentAppid, client.appid, redirectURI, scope, state);
  }

  /** The promise variant's six parameters are the five base ones, then the
      component. */
  lemma OAuthParamsExtendBase(componentAppid: string, authorizerAppid: string, redirectURI: string,
                              scope: Option<string>, state: Option<string>)
    ensures PromiseComponent.OAuthParams(componentAppid, authorizerAppid, redirectURI, scope, state)
            == BaseParams(authorizerAppid, redirectURI, scope, state) + [Param("component_appid", componentAppid)]
  {
  }

  /** Putting `&<field>` before the fragment of a URL whose query holds no
      `#` appends that parameter to the query. */
  lemma RewriteAppendsParam(head: string, base: seq<Param>, p: Param, text: string, fragment: string)
    requires |base| >= 1 && '#' !in head + Encode(base)
    requires |fragment| > 0 && fragment[0] == '#'
    requires text == "&" + Field(p)
    ensures ReplaceFirst(head + Encode(base) + fragment, fragment, text + fragment)
            == head + Encode(base + [p]) + fragment
  {
    var query, extended := Encode(base), Encode(base + [p]);
    assert extended == query + text by {
      EncodeSnoc(base, p);
    }
    InsertBeforeFragment(head + query, text, fragment);
    AppendToQuery(head, query, text, extended, fragment);
  }

  lemma ComponentField(componentAppid: string)
    ensures "&component_appid=" + componentAppid == "&" + Field(Param("component_appid", componentAppid))
  {
    assert "&" + "component_appid" + "=" == "&component_appid=";
  }

  lemma AppendToQuery(head: string, query: string, tail: string, extended: string, fragment: string)
    requires extended == query + tail
    ensures head + query + tail + fragment == head + extended + fragment
  {
  }
}
