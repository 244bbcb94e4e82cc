/** The broker settings screen (app/screens/MqttSettingsScreen.tsx): the
    split of a broker URL into protocol, host, port and path by the pattern
    `^(wss?:\/\/)?([^:/]+)(?::(\d+))?(\/.*)?$`, the composition of a URL from
    those four fields, the form that keeps the URL in step with them, and the
    save and connect buttons. */
module MqttSettings {
  import opened Options
  import Text
  import opened Mqtt
  import MqttClients

  /** The four groups of a match; `None` is a group that took no part. */
  datatype UrlMatch = UrlMatch(protocol: Option<string>, host: string, port: Option<string>, path: Option<string>)

  /** The four fields of the form. */
  datatype UrlParts = UrlParts(protocol: string, host: string, port: string, path: string)

  const DefaultProtocol: string := "wss://"
  const DefaultPath: string := "/mqtt"

  predicate IsProtocol(p: string)
  {
    p == "ws://" || p == "wss://"
  }

  /** `[^:/]+`. */
  predicate IsHost(h: string)
  {
    h != "" && forall i :: 0 <= i < |h| ==> h[i] != ':' && h[i] != '/'
  }

  /** `\d+`. */
  predicate IsPort(p: string)
  {
    p != "" && Text.AllDigits(p)
  }

  /** `\/.*`: a slash, then characters other than line terminators. */
  predicate IsPath(p: string)
  {
    p != "" && p[0] == '/' && Text.NoLineTerminator(p)
  }

  /** What follows the host in a URL with these port and path groups. */
  function TailText(port: Option<string>, path: Option<string>): string
  {
    (if port.Some? then ":" + port.value else "") + path.GetOr("")
  }

  /** The language of the pattern, with its groups: `m` is a way for the
      whole of `url` to match. */
  predicate Matches(url: string, m: UrlMatch)
  {
    && (m.protocol.Some? ==> IsProtocol(m.protocol.value))
    && IsHost(m.host)
    && (m.port.Some? ==> IsPort(m.port.value))
    && (m.path.Some? ==> IsPath(m.path.value))
    && url == m.protocol.GetOr("") + m.host + TailText(m.port, m.path)
  }

  /** `(wss?:\/\/)?` at the start of the URL; the longer protocol is tried
      first. */
  function ProtocolOf(url: string): (p: Option<string>)
    ensures p.Some? ==> IsProtocol(p.value) && Text.StartsWith(url, p.value)
  {
    if Text.StartsWith(url, "wss://") then Some("wss://")
    else if Text.StartsWith(url, "ws://") then Some("ws://")
    else None
  }

  /** The port and path groups for the text after the host. */
  function MatchTail(q: string): Option<(Option<string>, Option<string>)>
  {
    if q == [] then Some((None, None))
    else if q[0] == '/' then (if Text.NoLineTerminator(q) then Some((None, Some(q))) else None)
    else if q[0] == ':' then
      var d := Text.DigitRunLength(q[1..]);
      var after := q[1 + d..];
      if d == 0 then None
      else if after == [] then Some((Some(q[1..1 + d]), None))
      else if after[0] == '/' && Text.NoLineTerminator(after) then Some((Some(q[1..1 + d]), Some(after)))
      else None
    else None
  }

  /** `url.match(pattern)`: the groups, or `None` when there is no match.
      The host takes the longest run it can, the port all the digits after
      its colon: a shorter choice leaves a character that neither the port
      nor the path nor the end of the text can take. */
  function MatchUrl(url: string): Option<UrlMatch>
  {
    var protocol := ProtocolOf(url);
    var rest := url[|protocol.GetOr("")|..];
    var n := Text.HostRunLength(rest);
    if n == 0 then None
    else match MatchTail(rest[n..])
      case None => None
      case Some(t) => Some(UrlMatch(protocol, rest[..n], t.0, t.1))
  }

  /** The form's initial fields: each group, or its default when the group
      is absent or the URL does not match. */
  function SplitUrl(url: string): UrlParts
  {
    match MatchUrl(url)
    case None => UrlParts(DefaultProtocol, "", "", DefaultPath)
    case Some(m) => UrlParts(m.protocol.GetOr(DefaultProtocol), m.host, m.port.GetOr(""), m.path.GetOr(DefaultPath))
  }

  /** The URL the form composes: the colon appears only with a port. */
  function ComposeUrl(p: UrlParts): string
  {
    p.protocol + p.host + (if p.port != "" then ":" + p.port else "") + p.path
  }

  /** Fields that compose a URL the pattern splits back into them. */
  predicate ValidParts(p: UrlParts)
  {
    IsProtocol(p.protocol) && IsHost(p.host) && (p.port == "" || Text.AllDigits(p.port)) && IsPath(p.path)
  }

  // The split against the language of the pattern

  lemma {:induction false} MatchTailSound(q: string)
    requires MatchTail(q).Some?
    ensures var t := MatchTail(q).value;
      && (t.0.Some? ==> IsPort(t.0.value))
      && (t.1.Some? ==> IsPath(t.1.value))
      && q == TailText(t.0, t.1)
  {
    if q != [] && q[0] == ':' {
      var d := Text.DigitRunLength(q[1..]);
      assert q[1..][..d] == q[1..1 + d];
      assert q == ":" + q[1..1 + d] + q[1 + d..];
    }
  }

  /** The protocol group, when present, is the URL's prefix. */
  lemma {:induction false} ProtocolPrefix(url: string)
    ensures |ProtocolOf(url).GetOr("")| <= |url|
    ensures url == ProtocolOf(url).GetOr("") + url[|ProtocolOf(url).GetOr("")|..]
  {
    var p := ProtocolOf(url).GetOr("");
    assert url[..|p|] == p;
    assert url == url[..|p|] + url[|p|..];
  }

  /** What a match the split reports is made of. */
  lemma {:induction false} MatchUrlParts(url: string)
    requires MatchUrl(url).Some?
    ensures var m := MatchUrl(url).value;
      var rest := url[|ProtocolOf(url).GetOr("")|..];
      var n := Text.HostRunLength(rest);
      && m.protocol == ProtocolOf(url)
      && 0 < n && m.host == rest[..n]
      && MatchTail(rest[n..]) == Some((m.port, m.path))
  {
  }

  /** Groups that each meet their part of the pattern, and spell the URL
      between them, are a match. */
  lemma {:induction false} MatchesFromGroups(url: string, m: UrlMatch, rest: string, n: nat)
    requires m.protocol.Some? ==> IsProtocol(m.protocol.value)
    requires n <= |rest| && m.host == rest[..n] && IsHost(m.host)
    requires (m.port.Some? ==> IsPort(m.port.value)) && (m.path.Some? ==> IsPath(m.path.value))
    requires url == m.protocol.GetOr("") + rest && rest[n..] == TailText(m.port, m.path)
    ensures Matches(url, m)
  {
    assert rest == rest[..n] + rest[n..];
  }

  /** Every match the split reports is a way for the URL to match the
      pattern. */
  lemma {:induction false} MatchSound(url: string)
    requires MatchUrl(url).Some?
    ensures Matches(url, MatchUrl(url).value)
  {
    var m := MatchUrl(url).value;
    var rest := url[|ProtocolOf(url).GetOr("")|..];
    var n := Text.HostRunLength(rest);
    MatchUrlParts(url);
    ProtocolPrefix(url);
    MatchTailSound(rest[n..]);
    MatchesFromGroups(url, m, rest, n);
  }

  lemma {:induction false} MatchTailComplete(port: Option<string>, path: Option<string>)
    requires port.Some? ==> IsPort(port.value)
    requires path.Some? ==> IsPath(path.value)
    ensures MatchTail(TailText(port, path)) == Some((port, path))
  {
    var q := TailText(port, path);
    if port.Some? {
      var p := port.value;
      var a := path.GetOr("");
      assert q == ":" + p + a;
      assert q[1..] == p + a;
      Text.DigitRunOfConcat(p, a);
      assert q[1..1 + |p|] == p;
      assert q[1 + |p|..] == a;
    } else {
      assert q == path.GetOr("");
    }
  }

  /** A text that matches without a protocol group does not start with a
      protocol. */
  lemma {:induction false} NoProtocolPrefix(h: string, t: string, port: Option<string>, path: Option<string>)
    requires IsHost(h) && t == TailText(port, path)
    requires port.Some? ==> IsPort(port.value)
    requires path.Some? ==> IsPath(path.value)
    ensures ProtocolOf(h + t).None?
  {
    var u := h + t;
    assert t != [] ==> t[0] == ':' || t[0] == '/';
    assert t != [] && t[0] == ':' ==> port.Some?;
    assert port.Some? ==> |t| >= 2 && Text.IsDigit(t[1]);
    assert forall k :: |h| <= k < |u| ==> u[k] == t[k - |h|];
    var ws, wss := "ws://", "wss://";
    if |u| >= 5 {
      if |h| >= 3 {
        assert u[2] == h[2] && u[..5][2] != ws[2];
      } else if |h| == 2 {
        if t[0] == '/' { assert u[..5][2] != ws[2]; } else { assert u[..5][3] != ws[3]; }
      } else {
        assert u[..5][1] != ws[1];
      }
    }
    if |u| >= 6 {
      if |h| >= 4 {
        assert u[3] == h[3] && u[..6][3] != wss[3];
      } else if |h| == 3 {
        if t[0] == '/' { assert u[..6][3] != wss[3]; } else { assert u[..6][4] != wss[4]; }
      } else if |h| == 2 {
        assert u[..6][2] != wss[2];
      } else {
        assert u[..6][1] != wss[1];
      }
    }
  }

  /** The split finds the protocol group of any match, and the host and
      tail after it. */
  lemma {:induction false} ProtocolOfMatch(url: string, m: UrlMatch)
    requires Matches(url, m)
    ensures ProtocolOf(url) == m.protocol
    ensures url[|m.protocol.GetOr("")|..] == m.host + TailText(m.port, m.path)
  {
    var t := TailText(m.port, m.path);
    if m.protocol.None? {
      NoProtocolPrefix(m.host, t, m.port, m.path);
    } else {
      var p := m.protocol.value;
      assert url == p + (m.host + t);
      assert url[..|p|] == p;
      if p == "ws://" {
        assert url[2] == ':';
      }
    }
  }

  /** Every way for a URL to match the pattern is the one the split
      reports: the match is unique. */
  lemma {:induction false} MatchComplete(url: string, m: UrlMatch)
    requires Matches(url, m)
    ensures MatchUrl(url) == Some(m)
  {
    var t := TailText(m.port, m.path);
    MatchTailComplete(m.port, m.path);
    assert t != [] ==> t[0] == ':' || t[0] == '/';
    Text.HostRunOfConcat(m.host, t);
    ProtocolOfMatch(url, m);
    var rest := url[|m.protocol.GetOr("")|..];
    assert rest[..|m.host|] == m.host && rest[|m.host|..] == t;
  }

  // Split and compose

  /** A URL the pattern does not match opens the form with the defaults. */
  lemma NoMatchGivesDefaults(url: string)
    requires MatchUrl(url).None?
    ensures SplitUrl(url) == UrlParts(DefaultProtocol, "", "", DefaultPath)
  {
  }

  /** Composing valid fields and splitting the result gives the fields
      back. */
  lemma {:induction false} SplitCompose(p: UrlParts)
    requires ValidParts(p)
    ensures SplitUrl(ComposeUrl(p)) == p
  {
    var m := UrlMatch(Some(p.protocol), p.host, if p.port != "" then Some(p.port) else None, Some(p.path));
    assert ComposeUrl(p) == m.protocol.GetOr("") + m.host + TailText(m.port, m.path);
    MatchComplete(ComposeUrl(p), m);
  }

  /** Splitting a URL the pattern matches and composing the fields gives the
      URL back, with the default protocol in front when it had none and the
      default path at the end when it had none. */
  lemma {:induction false} ComposeSplit(url: string)
    requires MatchUrl(url).Some?
    ensures var m := MatchUrl(url).value;
      ComposeUrl(SplitUrl(url)) ==
        (if m.protocol.None? then DefaultProtocol else "") + url + (if m.path.None? then DefaultPath else "")
  {
    var m := MatchUrl(url).value;
    MatchSound(url);
    var parts := SplitUrl(url);
    var pre := if m.protocol.None? then DefaultProtocol else "";
    var post := if m.path.None? then DefaultPath else "";
    var portText := if m.port.Some? then ":" + m.port.value else "";
    assert parts.protocol == pre + m.protocol.GetOr("");
    assert parts.path == m.path.GetOr("") + post;
    assert (if parts.port != "" then ":" + parts.port else "") == portText;
    assert url == m.protocol.GetOr("") + m.host + (portText + m.path.GetOr(""));
    var a, d := m.protocol.GetOr(""), m.path.GetOr("");
    assert ComposeUrl(parts) == pre + a + m.host + portText + (d + post);
    Regroup(pre, a, m.host, portText, d, post);
  }

  lemma Regroup(pre: string, a: string, b: string, c: string, d: string, post: string)
    ensures pre + a + b + c + (d + post) == pre + (a + b + (c + d)) + post
  {
  }

  /** A composed URL gets the transport protocol its scheme names. */
  lemma {:induction false} ComposedProtocol(p: UrlParts)
    requires IsProtocol(p.protocol)
    ensures ProtocolFor(ComposeUrl(p)) == Some(if p.protocol == "wss://" then "wss" else "ws")
  {
    var u := ComposeUrl(p);
    assert u[..|p.protocol|] == p.protocol;
    if p.protocol == "ws://" {
      assert u[2] == ':';
    }
  }

  const PresetHost: string := "h96911ff.ala.asia-southeast1.emqxsl.com"
  const PresetPort: string := "8084"
  const PresetUrl: string := "wss://h96911ff.ala.asia-southeast1.emqxsl.com:8084/mqtt"

  /** The screen's local state. `brokerUrl` is written by every edit of the
      four URL fields but only read when the screen opens; the save composes
      the URL from the fields. */
  class SettingsForm {
    var brokerUrl: string
    var username: string
    var password: string
    var protocol: string
    var host: string
    var port: string
    var path: string

    function Parts(): UrlParts
      reads this
    {
      UrlParts(protocol, host, port, path)
    }

    /** The local URL is the one the fields compose. */
    predicate Synced()
      reads this
    {
      brokerUrl == ComposeUrl(Parts())
    }

    /** The screen opens with the store's values, the URL split into its
        fields. */
    constructor (store: MqttStore)
      ensures brokerUrl == store.brokerUrl && username == store.username && password == store.password
      ensures Parts() == SplitUrl(store.brokerUrl)
    {
      brokerUrl := store.brokerUrl;
      username := store.username;
      password := store.password;
      var parts := SplitUrl(store.brokerUrl);
      protocol := parts.protocol;
      host := parts.host;
      port := parts.port;
      path := parts.path;
    }

    /** The "wss://" and "ws://" buttons. */
    method ChooseProtocol(p: string)
      modifies this
      ensures Parts() == old(Parts()).(protocol := p) && Synced()
      ensures username == old(username) && password == old(password)
    {
      protocol := p;
      brokerUrl := p + host + (if port != "" then ":" + port else "") + path;
    }

    /** The host field. */
    method SetHost(v: string)
      modifies this
      ensures Parts() == old(Parts()).(host := v) && Synced()
      ensures username == old(username) && password == old(password)
    {
      host := v;
      brokerUrl := protocol + v + (if port != "" then ":" + port else "") + path;
    }

    /** The port field. */
    method SetPort(v: string)
      modifies this
      ensures Parts() == old(Parts()).(port := v) && Synced()
      ensures username == old(username) && password == old(password)
    {
      port := v;
      brokerUrl := protocol + host + (if v != "" then ":" + v else "") + path;
    }

    /** The path field. */
    method SetPath(v: string)
      modifies this
      ensures Parts() == old(Parts()).(path := v) && Synced()
      ensures username == old(username) && password == old(password)
    {
      path := v;
      brokerUrl := protocol + host + (if port != "" then ":" + port else "") + v;
    }

    /** The preset button: the EMQX Cloud fields, and the literal URL they
        compose. */
    method ApplyPreset()
      modifies this
      ensures Parts() == UrlParts(DefaultProtocol, PresetHost, PresetPort, DefaultPath) && Synced()
      ensures username == old(username) && password == old(password)
    {
      protocol := DefaultProtocol;
      host := PresetHost;
      port := PresetPort;
      path := DefaultPath;
      brokerUrl := PresetUrl;
      PresetComposes();
    }

    method SetUsername(v: string)
      modifies this
      ensures username == v && password == old(password)
      ensures brokerUrl == old(brokerUrl) && Parts() == old(Parts())
    {
      username := v;
    }

    method SetPassword(v: string)
      modifies this
      ensures password == v && username == old(username)
      ensures brokerUrl == old(brokerUrl) && Parts() == old(Parts())
    {
      password := v;
    }

    /** `handleSave()`: the composed URL and the credentials go to the store;
        a connected store is then disconnected, any other keeps its status
        and client. */
    method HandleSave(store: MqttStore)
      modifies store, store.client
      ensures store.brokerUrl == ComposeUrl(Parts())
      ensures store.username == username && store.password == password
      ensures old(store.status) == Connected ==>
        && store.status == Disconnected && store.client == null
        && (old(store.client) != null ==> old(store.client).calls == old(store.client.calls) + [MqttClients.Call.End(true)])
      ensures old(store.status) != Connected ==> store.status == old(store.status) && store.client == old(store.client)
      ensures old(store.client) != null && old(store.status) != Connected ==> old(store.client).calls == old(store.client.calls)
      ensures old(store.client) != null ==> old(store.client).listening == old(store.client.listening)
    {
      var finalUrl := protocol + host + (if port != "" then ":" + port else "") + path;
      store.SetBrokerUrl(finalUrl);
      store.SetUsername(username);
      store.SetPassword(password);
      if store.status == Connected {
        store.Disconnect();
      }
    }

    /** The connect button: a connected or connecting store is disconnected
        with its settings untouched; otherwise the form is saved and a
        connection started (`suffix` and `setupThrows` as for the store's
        `connect`). */
    method PressConnectButton(store: MqttStore, suffix: string, setupThrows: bool)
      modifies store, store.client
      ensures old(store.status) != Disconnected ==>
        && store.status == Disconnected && store.client == null
        && store.brokerUrl == old(store.brokerUrl)
        && store.username == old(store.username) && store.password == old(store.password)
      ensures old(store.status) == Disconnected ==>
        && store.brokerUrl == ComposeUrl(Parts())
        && store.username == username && store.password == password
        && (setupThrows ==> store.status == Disconnected && store.client == old(store.client))
        && (!setupThrows ==>
              && store.status == Connecting && store.client != null && fresh(store.client)
              && store.client.url == ComposeUrl(Parts())
              && store.client.options == OptionsFor(ComposeUrl(Parts()), username, password, suffix)
              && store.client.calls == [] && store.client.listening)
      ensures old(store.status) != Disconnected && old(store.client) != null ==>
        old(store.client).calls == old(store.client.calls) + [MqttClients.Call.End(true)]
      ensures old(store.status) == Disconnected && old(store.client) != null ==>
        old(store.client).calls == old(store.client.calls)
      ensures old(store.client) != null ==> old(store.client).listening == old(store.client.listening)
    {
      if store.status == Connected || store.status == Connecting {
        store.Disconnect();
      } else {
        HandleSave(store);
        store.Connect(suffix, setupThrows);
      }
    }
  }

  /** The preset's literal URL is the one its fields compose. */
  lemma PresetComposes()
    ensures ComposeUrl(UrlParts(DefaultProtocol, PresetHost, PresetPort, DefaultPath)) == PresetUrl
  {
    var withHost := DefaultProtocol + PresetHost;
    assert withHost == "wss://h96911ff.ala.asia-southeast1.emqxsl.com";
    var withPort := withHost + ":" + PresetPort;
    assert withPort == "wss://h96911ff.ala.asia-southeast1.emqxsl.com:8084";
    assert withPort + DefaultPath == PresetUrl;
  }
}
