/** Session configurations and their stored form (config.rs, persist.rs). */
module Config {
  import opened Wrappers

  datatype UpstreamSpec =
    | Loopback
    | Serial(port: string, baud: nat, dataBits: nat, parity: string, stopBits: nat, flow: string,
             inputEol: string, outputEol: string)
    | Ssh(host: string, sshPort: nat, user: string, password: string)
    | Telnet(host: string, telnetPort: nat)
    | RawTcp(host: string, tcpPort: nat)
    | LocalShell(command: string, args: seq<string>)
    | HttpProxy(listen: string, target: string, protocol: string)

  datatype SessionConfig = SessionConfig(
    name: string,
    password: string,
    sshUser: string,
    listen: string,
    autoReconnect: bool,
    launchOnStartup: bool,
    ptyOverride: Option<(nat, nat)>,
    upstream: UpstreamSpec)

  // The platform's secret store. Only what is encrypted can be relied on to decrypt.
  datatype Cipher = Cipher(encrypt: string -> string, decrypt: string -> string)

  ghost predicate Inverse(cipher: Cipher) {
    forall p :: cipher.decrypt(cipher.encrypt(p)) == p
  }

  function MapPasswords(f: string -> string, s: SessionConfig): SessionConfig {
    s.(password := f(s.password),
       upstream := if s.upstream.Ssh? then s.upstream.(password := f(s.upstream.password)) else s.upstream)
  }

  function MapAll(f: string -> string, sessions: seq<SessionConfig>): seq<SessionConfig> {
    seq(|sessions|, i requires 0 <= i < |sessions| => MapPasswords(f, sessions[i]))
  }

  // `stored` is `s` with `f` applied to the session's password and to that of an SSH upstream; nothing else
  // differs.
  predicate Rewritten(f: string -> string, s: SessionConfig, stored: SessionConfig) {
    && stored.password == f(s.password)
    && stored.name == s.name && stored.sshUser == s.sshUser && stored.listen == s.listen
    && stored.autoReconnect == s.autoReconnect && stored.launchOnStartup == s.launchOnStartup
    && stored.ptyOverride == s.ptyOverride
    && match s.upstream
       case Ssh(host, port, user, password) => stored.upstream == Ssh(host, port, user, f(password))
       case _ => stored.upstream == s.upstream
  }

  // Every stored session has its passwords rewritten.
  predicate AllRewritten(f: string -> string, sessions: seq<SessionConfig>, stored: seq<SessionConfig>) {
    |stored| == |sessions| && forall i :: 0 <= i < |sessions| ==> Rewritten(f, sessions[i], stored[i])
  }

  lemma MapAllRewrites(f: string -> string, sessions: seq<SessionConfig>)
    ensures AllRewritten(f, sessions, MapAll(f, sessions))
  {
  }

  // The loops of `redact_for_save` and `unredact_after_load`: both overwrite the password fields in place.
  method RewritePasswords(f: string -> string, sessions: array<SessionConfig>)
    modifies sessions
    ensures sessions[..] == MapAll(f, old(sessions[..]))
    ensures AllRewritten(f, old(sessions[..]), sessions[..])
  {
    for i := 0 to sessions.Length
      invariant forall k :: 0 <= k < i ==> sessions[k] == MapPasswords(f, old(sessions[k]))
      invariant forall k :: i <= k < sessions.Length ==> sessions[k] == old(sessions[k])
    {
      var s := sessions[i];
      s := s.(password := f(s.password));
      if s.upstream.Ssh? {
        s := s.(upstream := s.upstream.(password := f(s.upstream.password)));
      }
      sessions[i] := s;
    }
  }

  // What a load returns for a stored file; a missing file means no sessions.
  function Load(cipher: Cipher, file: Option<seq<SessionConfig>>): seq<SessionConfig> {
    if file.None? then [] else MapAll(cipher.decrypt, file.value)
  }

  // What is saved is what is loaded.
  lemma SaveThenLoad(cipher: Cipher, sessions: seq<SessionConfig>)
    requires Inverse(cipher)
    ensures Load(cipher, Some(MapAll(cipher.encrypt, sessions))) == sessions
  {
    var loaded := Load(cipher, Some(MapAll(cipher.encrypt, sessions)));
    forall i | 0 <= i < |sessions| ensures loaded[i] == sessions[i] {
      var s := sessions[i];
      assert loaded[i] == MapPasswords(cipher.decrypt, MapPasswords(cipher.encrypt, s));
    }
  }
}
