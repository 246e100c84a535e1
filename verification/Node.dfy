/** Nodes, relay nodes and the users built for them. */
module Node {
  import opened Basics
  import opened Decimal
  import opened Api
  import opened UserKey
  import opened Routing

  /** `settings` stands for all transport and security fields, `builds` for
      whether the inbound and outbound builders accept them. */
  datatype NodeInfo = NodeInfo(
    nodeType: string, nodeId: int, relayNodeId: int, relayType: int, speedLimit: uint64,
    listeningPort: string, cipher: string, flow: string, blocking: BlockingRules, settings: string, builds: bool)

  datatype RelayNodeInfo = RelayNodeInfo(
    nodeType: string, nodeId: int, listeningPort: nat, cipher: string, serverKey: string,
    settings: string, builds: bool)

  const PLUGIN := "Shadowsocks-Plugin"

  function NodeTag(n: NodeInfo): string {
    n.nodeType + "_" + n.listeningPort + "_" + Dec(n.nodeId)
  }

  function RelayTagOf(r: RelayNodeInfo): string {
    "Relay_" + r.nodeType + "_" + Dec(r.listeningPort) + "_" + Dec(r.nodeId)
  }

  /** The node's traffic is relayed per subscription. */
  predicate HasRelay(n: NodeInfo) {
    n.relayType == 1 && n.relayNodeId > 0
  }

  /** The node's own outbound gets a default rule. */
  predicate HasDefault(n: NodeInfo) {
    n.relayType == 0 || n.relayNodeId == 0
  }

  predicate Supported(n: NodeInfo) {
    n.nodeType in ["vless", "vmess", "trojan", "shadowsocks"]
  }

  // Shadowsocks 2022 keys.

  function LowerChar(c: char): char {
    if 'A' <= c <= 'Z' then c - 'A' + 'a' else c
  }

  function ToLower(s: string): string {
    if s == "" then "" else [LowerChar(s[0])] + ToLower(s[1..])
  }

  const AES_128 := "2022-blake3-aes-128-gcm"
  const AES_256 := "2022-blake3-aes-256-gcm"
  const CHACHA20 := "2022-blake3-chacha20-poly1305"

  predicate IsShadowsocks2022(cipher: string) {
    ToLower(cipher) in [AES_128, AES_256, CHACHA20]
  }

  /** `checkShadowsocksPassword`, up to the base64 text of the result. */
  function CheckPassword(password: string, cipher: string): Option<string> {
    if |password| < 16 then None
    else if ToLower(cipher) == AES_128 then Some(password[..16])
    else if ToLower(cipher) == AES_256 || ToLower(cipher) == CHACHA20 then
      if |password| < 32 then None else Some(password[..32])
    else None
  }

  // Users.

  datatype CipherType = Aes128Gcm | Aes256Gcm | Chacha20Poly1305

  function GetCipherType(cipher: string): CipherType {
    var c := ToLower(cipher);
    if c == "aes-256-gcm" then Aes256Gcm
    else if c == "chacha20-poly1305" || c == "chacha20-ietf-poly1305" then Chacha20Poly1305
    else Aes128Gcm
  }

  datatype Credential =
    | Vless(id: string, flow: string)
    | Vmess(id: string)
    | Trojan(password: string)
    | Shadowsocks2022(key: string)
    | Shadowsocks(password: string, cipher: CipherType)

  datatype User = User(key: string, credential: Credential)

  /** The account built for a subscription; None if its Shadowsocks 2022 key is unusable. */
  function CredentialOf(n: NodeInfo, s: Subscription): Option<Credential> {
    if n.nodeType == "vless" then Some(Vless(s.passwd, n.flow))
    else if n.nodeType == "vmess" then Some(Vmess(s.passwd))
    else if n.nodeType == "trojan" then Some(Trojan(s.passwd))
    else if IsShadowsocks2022(if n.cipher != "" then n.cipher else "aes-128-gcm") then
      match CheckPassword(s.passwd, n.cipher)
      case None => None
      case Some(key) => Some(Shadowsocks2022(key))
    else Some(Shadowsocks(s.passwd, GetCipherType(n.cipher)))
  }

  function UserOf(n: NodeInfo, tag: string, s: Subscription): Option<User> {
    match CredentialOf(n, s)
    case None => None
    case Some(c) => Some(User(Key(tag, s.email, s.id), c))
  }

  /** The users the four builders make of a list, in its order. */
  function BuildUsers(n: NodeInfo, tag: string, list: seq<Subscription>): seq<User> {
    if list == [] then [] else
      var s := list[|list| - 1];
      BuildUsers(n, tag, list[..|list| - 1]) + if UserOf(n, tag, s).Some? then [UserOf(n, tag, s).value] else []
  }

  // Accounts and relay keys in the terms of the panel.

  /** The text is this lower-case name up to the case of its letters. */
  predicate Spells(text: string, name: string) {
    && |text| == |name|
    && forall i :: 0 <= i < |text| ==>
         text[i] == name[i] || ('A' <= text[i] <= 'Z' && name[i] as int == text[i] as int + 32)
  }

  predicate NoCapitals(name: string) {
    forall i :: 0 <= i < |name| ==> !('A' <= name[i] <= 'Z')
  }

  lemma {:induction false} LowerSpells(text: string, name: string)
    requires NoCapitals(name)
    ensures ToLower(text) == name <==> Spells(text, name)
  {
    if text != "" && name != "" {
      LowerSpells(text[1..], name[1..]);
      assert name == [name[0]] + name[1..];
      assert Spells(text, name) <==> Spells([text[0]], [name[0]]) && Spells(text[1..], name[1..]) by {
        if Spells([text[0]], [name[0]]) && Spells(text[1..], name[1..]) {
          forall i | 0 <= i < |text|
            ensures text[i] == name[i] || ('A' <= text[i] <= 'Z' && name[i] as int == text[i] as int + 32)
          {
            if i == 0 {
              assert [text[0]][0] == text[0] && [name[0]][0] == name[0];
            } else {
              assert text[1..][i - 1] == text[i] && name[1..][i - 1] == name[i];
            }
          }
        }
      }
    }
  }

  /** A Shadowsocks 2022 key of this length. */
  function Prefix(passwd: string, length: nat): Option<string> {
    if |passwd| < length then None else Some(passwd[..length])
  }

  /** The account that a subscription gets at a node, type by type. */
  ghost predicate AccountOf(n: NodeInfo, s: Subscription, account: Option<Credential>) {
    && (n.nodeType == "vless" ==> account == Some(Vless(s.passwd, n.flow)))
    && (n.nodeType == "vmess" ==> account == Some(Vmess(s.passwd)))
    && (n.nodeType == "trojan" ==> account == Some(Trojan(s.passwd)))
    && (n.nodeType == "shadowsocks" ==> ShadowsocksAccount(n.cipher, s.passwd, account))
  }

  ghost predicate ShadowsocksAccount(cipher: string, passwd: string, account: Option<Credential>) {
    if Spells(cipher, "2022-blake3-aes-128-gcm") then Account2022(Prefix(passwd, 16), account)
    else if Spells(cipher, "2022-blake3-aes-256-gcm") || Spells(cipher, "2022-blake3-chacha20-poly1305") then
      Account2022(Prefix(passwd, 32), account)
    else
      account == Some(Shadowsocks(passwd,
        if Spells(cipher, "aes-256-gcm") then Aes256Gcm
        else if Spells(cipher, "chacha20-poly1305") || Spells(cipher, "chacha20-ietf-poly1305") then Chacha20Poly1305
        else Aes128Gcm))
  }

  /** There is an account exactly if the key is long enough. */
  ghost predicate Account2022(key: Option<string>, account: Option<Credential>) {
    account == match key case None => None case Some(text) => Some(Shadowsocks2022(text))
  }

  lemma Lower2022(cipher: string)
    ensures ToLower(cipher) == AES_128 <==> Spells(cipher, "2022-blake3-aes-128-gcm")
    ensures ToLower(cipher) == AES_256 <==> Spells(cipher, "2022-blake3-aes-256-gcm")
    ensures ToLower(cipher) == CHACHA20 <==> Spells(cipher, "2022-blake3-chacha20-poly1305")
  {
    hide ToLower, Spells;
    LowerSpells(cipher, AES_128);
    LowerSpells(cipher, AES_256);
    LowerSpells(cipher, CHACHA20);
  }

  lemma LowerPlain(cipher: string)
    ensures ToLower(cipher) == "aes-256-gcm" <==> Spells(cipher, "aes-256-gcm")
    ensures ToLower(cipher) == "chacha20-poly1305" <==> Spells(cipher, "chacha20-poly1305")
    ensures ToLower(cipher) == "chacha20-ietf-poly1305" <==> Spells(cipher, "chacha20-ietf-poly1305")
  {
    hide ToLower, Spells;
    LowerSpells(cipher, "aes-256-gcm");
    LowerSpells(cipher, "chacha20-poly1305");
    LowerSpells(cipher, "chacha20-ietf-poly1305");
  }

  /** What the builders install is that account. */
  lemma CredentialIs(n: NodeInfo, s: Subscription)
    ensures AccountOf(n, s, CredentialOf(n, s))
  {
    hide ToLower, Spells;
    Lower2022(n.cipher);
    LowerPlain(n.cipher);
    if n.cipher == "" {
      NotLower();
    }
  }

  lemma NotLower()
    ensures !IsShadowsocks2022("aes-128-gcm") && !IsShadowsocks2022("")
  {
    hide ToLower;
    Lower2022("aes-128-gcm");
    Lower2022("");
  }

  // Relay outbounds.

  datatype RelayKey = Password(text: string) | Combined(serverKey: string, userKey: string)

  function RelayKeyOf(r: RelayNodeInfo, s: Subscription): Option<RelayKey> {
    if IsShadowsocks2022(r.cipher) then
      match CheckPassword(s.passwd, r.cipher)
      case None => None
      case Some(key) => Some(Combined(r.serverKey, key))
    else Some(Password(s.passwd))
  }

  /** The key of a subscription's relay outbound: the password, or for a 2022 cipher the
      server's key and the first 16 or 32 characters of the password, if it has that many. */
  ghost predicate RelayAccount(r: RelayNodeInfo, s: Subscription, key: Option<RelayKey>) {
    if Spells(r.cipher, "2022-blake3-aes-128-gcm") then Joined(r.serverKey, Prefix(s.passwd, 16), key)
    else if Spells(r.cipher, "2022-blake3-aes-256-gcm") || Spells(r.cipher, "2022-blake3-chacha20-poly1305") then
      Joined(r.serverKey, Prefix(s.passwd, 32), key)
    else key == Some(Password(s.passwd))
  }

  ghost predicate Joined(serverKey: string, text: Option<string>, key: Option<RelayKey>) {
    key == match text case None => None case Some(userKey) => Some(Combined(serverKey, userKey))
  }

  lemma RelayKeyIs(r: RelayNodeInfo, s: Subscription)
    ensures RelayAccount(r, s, RelayKeyOf(r, s))
  {
    hide ToLower, Spells;
    Lower2022(r.cipher);
  }
}
