/** The limiter key of a request that came through reverse proxies (ratelimit/ratelimit.go). */
module ProxyKey {
  import opened Sums

  /** strings.TrimSpace, net.ParseIP (is it an address) and net.SplitHostPort (the host, if there is one). */
  datatype Net = Net(trim: string -> string, isAddress: string -> bool, hostOf: string -> Option<string>)

  function ClientKey(net: Net, remote: string): string {
    if net.hostOf(remote).Some? then net.hostOf(remote).value else remote
  }

  /** strings.Split at commas. */
  function Split(s: string): (r: seq<string>)
    ensures |r| >= 1
  {
    if s == "" then [""]
    else if s[0] == ',' then [""] + Split(s[1..])
    else
      var rest := Split(s[1..]);
      [[s[0]] + rest[0]] + rest[1..]
  }

  function Key(net: Net, remote: string, forwardedFor: string, proxies: int): string {
    if proxies < 1 || forwardedFor == "" then ClientKey(net, remote) else
    var addresses := Split(forwardedFor);
    var index := |addresses| - proxies;
    var address := net.trim(addresses[if index < 0 then 0 else index]);
    if net.isAddress(address) then address else ClientKey(net, remote)
  }

  /** Each proxy adds the address it saw, after a comma. */
  function Join(entries: seq<string>): string
    requires |entries| >= 1
  {
    if |entries| == 1 then entries[0] else entries[0] + "," + Join(entries[1..])
  }

  lemma {:induction false} SplitAtComma(h: string, t: string)
    ensures Split(h + "," + t) == Split(h) + Split(t)
    decreases |h|
  {
    var s := h + "," + t;
    if h == "" {
      assert s[0] == ',' && s[1..] == t;
    } else {
      assert s[0] == h[0] && s[1..] == h[1..] + "," + t;
      SplitAtComma(h[1..], t);
      var rest := Split(h[1..]);
      if h[0] != ',' { assert (rest + Split(t))[1..] == rest[1..] + Split(t); }
    }
  }

  lemma {:induction false} SplitEntry(a: string)
    requires ',' !in a
    ensures Split(a) == [a]
    decreases |a|
  {
    if a != "" {
      SplitEntry(a[1..]);
      assert [a[0]] + a[1..] == a;
    }
  }

  lemma {:induction false} SplitEntries(entries: seq<string>)
    requires |entries| >= 1 && forall a | a in entries :: ',' !in a
    ensures Split(Join(entries)) == entries
    decreases |entries|
  {
    SplitEntry(entries[0]);
    if |entries| > 1 {
      SplitAtComma(entries[0], Join(entries[1..]));
      SplitEntries(entries[1..]);
      assert [entries[0]] + entries[1..] == entries;
    }
  }

  /** With no proxy configured the header decides nothing: the key is the host that connected. */
  lemma NoProxyNoHeader(net: Net, remote: string, forwardedFor: string, proxies: int)
    requires proxies < 1
    ensures Key(net, remote, forwardedFor, proxies)
            == if net.hostOf(remote).Some? then net.hostOf(remote).value else remote
  {
  }

  /** With n trusted proxies, the n entries they add decide the key, whatever the caller put before them. */
  lemma CallerCannotChooseTheKey(net: Net, remote: string, h: string, entries: seq<string>)
    requires |entries| >= 1 && forall a | a in entries :: ',' !in a
    ensures Key(net, remote, h + "," + Join(entries), |entries|)
            == if net.isAddress(net.trim(entries[0])) then net.trim(entries[0])
               else if net.hostOf(remote).Some? then net.hostOf(remote).value else remote
  {
    SplitAtComma(h, Join(entries));
    SplitEntries(entries);
  }

  /** A header with no more entries than proxies is read from its first entry. */
  lemma ShortHeader(net: Net, remote: string, entries: seq<string>, proxies: nat)
    requires 1 <= |entries| <= proxies && Join(entries) != "" && forall a | a in entries :: ',' !in a
    ensures Key(net, remote, Join(entries), proxies)
            == if net.isAddress(net.trim(entries[0])) then net.trim(entries[0])
               else if net.hostOf(remote).Some? then net.hostOf(remote).value else remote
  {
    SplitEntries(entries);
  }
}
