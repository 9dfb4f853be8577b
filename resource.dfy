/**
 * The dnsmasqapi_dnsentry resource (internal/provider/dnsentry/resource_dnsentry.go): the
 * create, read, update and delete callbacks over the resource's state, driven by the
 * API client.
 *
 * `ResourceData` is the state the callbacks change in place (its ID and its attributes);
 * `State` is that state as a value, and `ReadSpec` and `PostThenReadSpec` say what the
 * callbacks do to it. A Go panic is the outcome `Panicked`.
 */
module DnsEntryResource {

  import opened Wrappers
  import opened Strings
  import opened ApiClient

  const FieldHostname := "hostname"
  const FieldIpAddress := "ip_address"
  /** The description text of the ip_address attribute, which Read passes as a key. */
  const FieldDescIpAddress := "The IP Addess of the DNS entry."

  /** The resource's ID and attributes. An empty ID means the resource is absent. */
  datatype State = State(id: string, hostname: string, ipAddress: string, append: bool)

  /** What a callback ends with: the diagnostics it returns, or a run-time panic. */
  datatype Outcome = Returned(diags: seq<Diagnostic>) | Panicked

  /** The error of a write to a key the schema does not have. */
  datatype SetError = InvalidAddress(key: string)

  /**
   * A write of a string value to an attribute by key: it takes effect, on that attribute
   * only, exactly when the key names one of the schema's string attributes.
   */
  function SetString(s: State, key: string, value: string): (r: (State, Option<SetError>))
    ensures r.1.None? <==> key == FieldHostname || key == FieldIpAddress
    ensures r.0.id == s.id && r.0.append == s.append
    ensures r.0.hostname == if key == FieldHostname then value else s.hostname
    ensures r.0.ipAddress == if key == FieldIpAddress then value else s.ipAddress
  {
    if key == FieldHostname then (s.(hostname := value), None)
    else if key == FieldIpAddress then (s.(ipAddress := value), None)
    else (s, Some(InvalidAddress(key)))
  }

  /** Read's write of the observed IP goes to a key the schema lacks, so it is refused and changes nothing. */
  lemma ReadWriteKeyIsRefused(s: State, ip: string)
    ensures SetString(s, FieldDescIpAddress, ip) == (s, Some(InvalidAddress(FieldDescIpAddress)))
  {
    assert FieldDescIpAddress[0] != FieldHostname[0] && FieldDescIpAddress[0] != FieldIpAddress[0];
  }

  /** The ID of an entry: its hostname and an IP joined by `|`. */
  function EntryId(hostname: string, ip: string): (r: string)
    ensures |r| == |hostname| + 1 + |ip|
    ensures r[..|hostname|] == hostname && r[|hostname|] == '|' && r[|hostname| + 1..] == ip
  {
    hostname + "|" + ip
  }

  /** For a hostname without `|` (which no RFC 1123 hostname has), the ID gives back hostname and IP. */
  lemma EntryIdRoundTrip(hostname: string, ip: string)
    requires '|' !in hostname
    ensures SplitFirst(EntryId(hostname, ip), '|') == Some((hostname, ip))
  {
    assert EntryId(hostname, ip) == hostname + ['|'] + ip;
    SplitFirstJoin(hostname, '|', ip);
  }

  /**
   * Read: fetch the hostname's records; on an error return it, on an empty list panic, and
   * otherwise set the ID from the first record. The attributes never change.
   */
  function ReadSpec(s: State, c: Client, t: Transport): (r: (State, Outcome))
    ensures r.0.hostname == s.hostname && r.0.ipAddress == s.ipAddress && r.0.append == s.append
    ensures GetDNSEntry(c, s.hostname, t).Failure? ==>
              r == (s, Returned([FromErr(GetDNSEntry(c, s.hostname, t).error)]))
    ensures r.1.Panicked? <==> GetDNSEntry(c, s.hostname, t) == Success([])
    ensures r.1 == Returned([]) <==> GetDNSEntry(c, s.hostname, t).Success? && GetDNSEntry(c, s.hostname, t).value != []
    ensures r.1 == Returned([]) ==> r.0.id == EntryId(s.hostname, GetDNSEntry(c, s.hostname, t).value[0].ip)
    ensures r.1 != Returned([]) ==> r.0 == s
  {
    match GetDNSEntry(c, s.hostname, t)
    case Failure(e) => (s, Returned([FromErr(e)]))
    case Success(entries) =>
      if |entries| == 0 then (s, Panicked)
      else
        var withId := s.(id := EntryId(s.hostname, entries[0].ip));
        ReadWriteKeyIsRefused(withId, entries[0].ip);
        (SetString(withId, FieldDescIpAddress, entries[0].ip).0, Returned([]))
  }

  /**
   * Create and Update: post the state's hostname, IP and append flag; on an error return it
   * with the state unchanged, otherwise end exactly as Read does.
   */
  function PostThenReadSpec(s: State, c: Client, t: Transport): (r: (State, Outcome))
    ensures PostDNSEntry(c, s.hostname, s.ipAddress, s.append, t).Failure? ==>
              r == (s, Returned([FromErr(PostDNSEntry(c, s.hostname, s.ipAddress, s.append, t).error)]))
    ensures PostDNSEntry(c, s.hostname, s.ipAddress, s.append, t).Success? ==> r == ReadSpec(s, c, t)
  {
    match PostDNSEntry(c, s.hostname, s.ipAddress, s.append, t)
    case Failure(e) => (s, Returned([FromErr(e)]))
    case Success(_) => ReadSpec(s, c, t)
  }

  /** Reading twice against the same API answers is reading once. */
  lemma ReadIdempotent(s: State, c: Client, t: Transport)
    ensures ReadSpec(ReadSpec(s, c, t).0, c, t) == ReadSpec(s, c, t)
  {
    var s' := ReadSpec(s, c, t).0;
    assert s'.hostname == s.hostname;
    if ReadSpec(s, c, t).1 == Returned([]) {
      assert s' == s.(id := s'.id);
    }
  }

  /** Only the first record decides the ID: any records after it are ignored. */
  lemma ReadUsesFirstRecordOnly(s: State, c: Client, t1: Transport, t2: Transport, ip: string)
    requires GetDNSEntry(c, s.hostname, t1).Success? && GetDNSEntry(c, s.hostname, t2).Success?
    requires GetDNSEntry(c, s.hostname, t1).value != [] && GetDNSEntry(c, s.hostname, t2).value != []
    requires GetDNSEntry(c, s.hostname, t1).value[0].ip == ip
    requires GetDNSEntry(c, s.hostname, t2).value[0].ip == ip
    ensures ReadSpec(s, c, t1) == ReadSpec(s, c, t2)
  {
  }

  /** An API that answers 200 with an empty JSON list makes Read panic. */
  lemma ReadPanicsOnEmptyList(s: State, c: Client)
    requires s.hostname != ""
    ensures ReadSpec(s, c, _ => Replied(StatusOK, JsonContentType, Records([]))).1 == Panicked
  {
  }

  /**
   * A 200 reply whose body does not decode (an empty body among them) is an error diagnostic
   * for Read, not a panic, and the state is unchanged.
   */
  lemma ReadReportsUndecodableBody(s: State, c: Client)
    requires s.hostname != ""
    ensures ReadSpec(s, c, _ => Replied(StatusOK, JsonContentType, Malformed)) == (s, Returned([FromErr(MalformedBody)]))
  {
  }

  /** The resource's state, changed in place by the lifecycle callbacks. */
  class ResourceData {
    var id: string
    var hostname: string
    var ipAddress: string
    var append: bool

    /** The state as a value. */
    function Snapshot(): State
      reads this
    {
      State(id, hostname, ipAddress, append)
    }

    constructor (hostname: string, ipAddress: string, append: bool)
      ensures Snapshot() == State("", hostname, ipAddress, append)
    {
      this.id := "";
      this.hostname := hostname;
      this.ipAddress := ipAddress;
      this.append := append;
    }

    /** d.SetId. */
    method SetId(v: string)
      modifies this
      ensures Snapshot() == old(Snapshot()).(id := v)
    {
      id := v;
    }

    /** d.Set with a string value. */
    method Set(key: string, value: string) returns (err: Option<SetError>)
      modifies this
      ensures (Snapshot(), err) == SetString(old(Snapshot()), key, value)
    {
      if key == FieldHostname {
        hostname := value;
        err := None;
      } else if key == FieldIpAddress {
        ipAddress := value;
        err := None;
      } else {
        err := Some(InvalidAddress(key));
      }
    }

    /** resourceDnsEntryRead. */
    method Read(c: Client, transport: Transport) returns (outcome: Outcome)
      modifies this
      ensures (Snapshot(), outcome) == ReadSpec(old(Snapshot()), c, transport)
    {
      var host := hostname;
      var got := GetDNSEntry(c, host, transport);
      if got.Failure? {
        return Returned([FromErr(got.error)]);
      }
      var entries := got.value;
      if |entries| == 0 {
        // entries[0] of an empty slice
        return Panicked;
      }
      SetId(EntryId(host, entries[0].ip));
      var _ := Set(FieldDescIpAddress, entries[0].ip);
      return Returned([]);
    }

    /** resourceDnsEntryCreate. */
    method Create(c: Client, transport: Transport) returns (outcome: Outcome)
      modifies this
      ensures (Snapshot(), outcome) == PostThenReadSpec(old(Snapshot()), c, transport)
    {
      var posted := PostDNSEntry(c, hostname, ipAddress, append, transport);
      if posted.Failure? {
        return Returned([FromErr(posted.error)]);
      }
      outcome := Read(c, transport);
    }

    /** resourceDnsEntryUpdate: the same steps as Create. */
    method Update(c: Client, transport: Transport) returns (outcome: Outcome)
      modifies this
      ensures (Snapshot(), outcome) == PostThenReadSpec(old(Snapshot()), c, transport)
    {
      var posted := PostDNSEntry(c, hostname, ipAddress, append, transport);
      if posted.Failure? {
        return Returned([FromErr(posted.error)]);
      }
      outcome := Read(c, transport);
    }

    /**
     * resourceDnsEntryDelete: ask the client to delete the hostname's entries; whatever the API
     * answers, and even for an empty hostname, the ID is cleared and no diagnostic is returned.
     * The client's error, `dropped`, is turned into a diagnostic that is then thrown away.
     */
    method Delete(c: Client, transport: Transport) returns (outcome: Outcome, ghost dropped: Option<ClientError>)
      modifies this
      ensures dropped == DeleteDNSEntry(c, old(hostname), transport)
      ensures Snapshot() == old(Snapshot()).(id := "")
      ensures outcome == Returned([])
    {
      var err := DeleteDNSEntry(c, hostname, transport);
      dropped := err;
      if err.Some? {
        var _ := [FromErr(err.value)];
      }
      SetId("");
      outcome := Returned([]);
    }
  }
}
