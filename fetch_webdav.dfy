/** `FetchWebDAV`: takes one FlowFile from the incoming queue, optionally
    adds the remote resource's custom properties as "dav."-prefixed
    attributes, replaces its content with the remote content, and routes it
    to exactly one of success or failure. */
module FetchWebDAV {
  import opened Wrappers
  import opened WebDAVTypes
  import opened AbstractWebDAV

  const DavPrefix: string := "dav."

  /** Removing the prefix from a prefixed key gives the key back. */
  lemma StripPrefix(k: string)
    ensures (DavPrefix + k)[..|DavPrefix|] == DavPrefix
    ensures (DavPrefix + k)[|DavPrefix|..] == k
  {
  }

  /** The keys `getProperties` writes. */
  function PrefixedKeys(props: map<string, string>): set<string> {
    set k | k in props :: DavPrefix + k
  }

  lemma PrefixedKeyOrigin(props: map<string, string>, key: string)
    requires key in PrefixedKeys(props)
    ensures |key| >= |DavPrefix| && key[|DavPrefix|..] in props && key == DavPrefix + key[|DavPrefix|..]
  {
    var k :| k in props && key == DavPrefix + k;
    StripPrefix(k);
  }

  /** The attributes `getProperties` returns for a resource's custom
      properties: every key gains the "dav." prefix and keeps its value. */
  function Prefixed(props: map<string, string>): (attrs: map<string, string>)
    ensures attrs.Keys == set k | k in props :: DavPrefix + k
    ensures forall k :: k in props ==> DavPrefix + k in attrs && attrs[DavPrefix + k] == props[k]
  {
    assert forall k :: k in props ==> (DavPrefix + k)[|DavPrefix|..] == k by {
      forall k | k in props {
        StripPrefix(k);
      }
    }
    map key | key in PrefixedKeys(props) ::
      (assert key[|DavPrefix|..] in props by { PrefixedKeyOrigin(props, key); }
       props[key[|DavPrefix|..]])
  }

  /** The keys of `attrs` that carry the prefix, with the prefix removed. */
  function StrippedKeys(attrs: map<string, string>): set<string> {
    set k | k in attrs && |k| >= |DavPrefix| && k[..|DavPrefix|] == DavPrefix :: k[|DavPrefix|..]
  }

  /** The inverse of `Prefixed`: the prefixed entries, with the prefix removed. */
  function Unprefixed(attrs: map<string, string>): map<string, string> {
    map k | k in StrippedKeys(attrs) :: (assert (DavPrefix + k) in attrs by { StrippedKeyIsPrefixed(attrs, k); }
                                         attrs[DavPrefix + k])
  }

  lemma StrippedKeyIsPrefixed(attrs: map<string, string>, k: string)
    requires k in StrippedKeys(attrs)
    ensures DavPrefix + k in attrs
  {
    var full :| full in attrs && |full| >= |DavPrefix| && full[..|DavPrefix|] == DavPrefix && full[|DavPrefix|..] == k;
    assert full == DavPrefix + k;
  }

  /** Adding one property adds exactly its prefixed entry. */
  lemma PrefixedInsert(props: map<string, string>, k: string, v: string)
    requires k !in props
    ensures DavPrefix + k !in Prefixed(props)
    ensures Prefixed(props[k := v]) == Prefixed(props)[DavPrefix + k := v]
  {
    forall j | j in props
      ensures DavPrefix + j != DavPrefix + k
    {
      StripPrefix(j);
      StripPrefix(k);
    }
    StripPrefix(k);
  }

  /** Prefixing is injective, so no two properties collide: the result has
      as many entries as the input. */
  lemma {:induction false} PrefixedSize(props: map<string, string>)
    ensures |Prefixed(props)| == |props|
    decreases |props|
  {
    if props != map[] {
      var k :| k in props;
      var rest := props - {k};
      assert props == rest[k := props[k]];
      PrefixedInsert(rest, k, props[k]);
      PrefixedSize(rest);
    }
  }

  /** Stripping the prefix from every key of the result recovers the
      custom properties. */
  lemma PrefixedRoundTrip(props: map<string, string>)
    ensures Unprefixed(Prefixed(props)) == props
  {
    var attrs := Prefixed(props);
    forall k | k in props
      ensures k in StrippedKeys(attrs)
    {
      StripPrefix(k);
    }
    forall k | k in StrippedKeys(attrs)
      ensures k in props
    {
      StrippedKeyIsPrefixed(attrs, k);
      var j :| j in props && DavPrefix + j == DavPrefix + k;
      StripPrefix(j);
      StripPrefix(k);
    }
  }

  /** `getProperties`: lists the resource at depth 0 (an `IOException` when
      that fails), takes the first entry (an `IndexOutOfBoundsException` on an
      empty list), and copies its custom properties under prefixed keys. */
  method GetProperties(listed: Option<seq<Resource>>) returns (r: Result<map<string, string>, Fault>)
    ensures r == PropertiesOf(listed)
  {
    if listed.None? {
      return Failure(IOError);
    }
    if listed.value == [] {
      return Failure(IndexOutOfBounds);
    }
    var customProps := listed.value[0].customProps;
    var attributes: map<string, string> := map[];
    var remaining := customProps.Keys;
    while remaining != {}
      invariant remaining <= customProps.Keys
      invariant attributes == Prefixed(customProps - remaining)
      decreases remaining
    {
      var k :| k in remaining;
      PrefixedInsert(customProps - remaining, k, customProps[k]);
      assert customProps - (remaining - {k}) == (customProps - remaining)[k := customProps[k]];
      attributes := attributes[DavPrefix + k := customProps[k]];
      remaining := remaining - {k};
    }
    assert customProps - remaining == customProps;
    return Success(attributes);
  }

  /** What `getProperties` yields: an `IOException` when the depth-0 listing
      fails, an index exception when it is empty, and otherwise the first
      entry's custom properties under prefixed keys, none lost and each
      recoverable. */
  function PropertiesOf(listed: Option<seq<Resource>>): (r: Result<map<string, string>, Fault>)
    ensures listed.None? ==> r == Failure(IOError)
    ensures listed.Some? && listed.value == [] ==> r == Failure(IndexOutOfBounds)
    ensures r.Success? ==>
      var props := listed.value[0].customProps;
      && |r.value| == |props|
      && Unprefixed(r.value) == props
      && forall k :: k in props ==> DavPrefix + k in r.value && r.value[DavPrefix + k] == props[k]
  {
    if listed.None? then Failure(IOError)
    else if listed.value == [] then Failure(IndexOutOfBounds)
    else
      var props := listed.value[0].customProps;
      PrefixedSize(props);
      PrefixedRoundTrip(props);
      Success(Prefixed(props))
  }

  /** `session.penalize`: the same FlowFile, marked for back-off. */
  function Penalized(f: FlowFile): (g: FlowFile)
    ensures g.penalized
    ensures g.attributes == f.attributes && g.content == f.content
  {
    f.(penalized := true)
  }

  /** Where an input FlowFile goes, and what it looks like when it gets there. */
  datatype Route = ToSuccess(file: FlowFile) | ToFailure(file: FlowFile)

  /** The body of `onTrigger` for one FlowFile. `authenticated` is whether
      `addAuth` returned normally; `listed` is the depth-0 listing for the
      properties and `fetched` the remote content (`None` for an exception).
      Every exception inside routes the FlowFile, penalized, to failure. */
  function FetchRoute(flowFile: FlowFile, getAllProperties: bool, authenticated: bool,
                      listed: Option<seq<Resource>>, fetched: Option<seq<byte>>): (route: Route)
    ensures route.ToSuccess? <==>
      authenticated && (getAllProperties ==> PropertiesOf(listed).Success?) && fetched.Some?
    ensures route.ToSuccess? ==> route.file.content == fetched.value && route.file.penalized == flowFile.penalized
    ensures route.ToFailure? ==> route.file.content == flowFile.content && route.file.penalized
    ensures route.ToFailure? ==>
      route.file.attributes ==
        (if getAllProperties && authenticated && PropertiesOf(listed).Success?
         then PutAllAttributes(flowFile, PropertiesOf(listed).value).attributes
         else flowFile.attributes)
    ensures !getAllProperties ==> route.file.attributes == flowFile.attributes
    ensures getAllProperties && route.ToSuccess? ==>
      var props := PropertiesOf(listed).value;
      && route.file.attributes.Keys == flowFile.attributes.Keys + props.Keys
      && (forall k :: k in props ==> route.file.attributes[k] == Some(props[k]))
      && (forall k :: k in flowFile.attributes && k !in props ==> route.file.attributes[k] == flowFile.attributes[k])
  {
    if !authenticated then ToFailure(Penalized(flowFile))
    else if getAllProperties && PropertiesOf(listed).Failure? then ToFailure(Penalized(flowFile))
    else
      var withProps := if getAllProperties then PutAllAttributes(flowFile, PropertiesOf(listed).value) else flowFile;
      if fetched.None? then ToFailure(Penalized(withProps))
      else ToSuccess(withProps.(content := fetched.value))
  }

  /** With "Get All Properties" set, a FlowFile that reaches success carries
      every custom property of the resource under its "dav." key. */
  lemma FetchedPropertiesArePrefixed(flowFile: FlowFile, authenticated: bool, listed: Option<seq<Resource>>,
                                     fetched: Option<seq<byte>>, k: string)
    requires FetchRoute(flowFile, true, authenticated, listed, fetched).ToSuccess?
    ensures listed.Some? && listed.value != []
    ensures k in listed.value[0].customProps ==>
      FetchRoute(flowFile, true, authenticated, listed, fetched).file.attributes[DavPrefix + k] ==
        Some(listed.value[0].customProps[k])
  {
  }

  /** The inner `try` of `onTrigger`: after `addAuth`, optionally merge the
      properties, then import the remote content; any exception on the way
      penalizes the FlowFile as it stands and routes it to failure. */
  method Process(flowFile: FlowFile, getAllProperties: bool, authenticated: bool,
                 listed: Option<seq<Resource>>, fetched: Option<seq<byte>>) returns (routed: Route)
    ensures routed == FetchRoute(flowFile, getAllProperties, authenticated, listed, fetched)
  {
    if !authenticated {
      return ToFailure(Penalized(flowFile));
    }
    var current := flowFile;
    if getAllProperties {
      var props := GetProperties(listed);
      if props.Failure? {
        return ToFailure(Penalized(current));
      }
      current := PutAllAttributes(current, props.value);
    }
    if fetched.None? {
      return ToFailure(Penalized(current));
    }
    return ToSuccess(current.(content := fetched.value));
  }

  /** The processor with the queues the host keeps for it. */
  class FetchWebDAVProcessor {
    const base: WebDAVProcessor
    var incoming: seq<FlowFile>
    var success: seq<FlowFile>
    var failure: seq<FlowFile>

    constructor (base: WebDAVProcessor, incoming: seq<FlowFile>)
      ensures this.base == base && this.incoming == incoming && success == [] && failure == []
    {
      this.base := base;
      this.incoming := incoming;
      success := [];
      failure := [];
    }

    /** `onTrigger`: with no FlowFile queued it does nothing; otherwise the
        head of the queue goes to exactly one of success or failure. */
    method OnTrigger(getAllProperties: bool, cfg: AuthConfig, uri: Option<Uri>,
                     listed: Option<seq<Resource>>, fetched: Option<seq<byte>>)
      modifies this, base
      ensures old(incoming) == [] ==>
        && incoming == [] && success == old(success) && failure == old(failure)
        && base.credentials == old(base.credentials)
      ensures old(incoming) != [] ==>
        var auth := AddAuthCredentials(old(base.credentials), base.workstation, cfg, uri);
        && incoming == old(incoming)[1..]
        && base.credentials == Settled(old(base.credentials), auth)
        && match FetchRoute(old(incoming)[0], getAllProperties, auth.Success?, listed, fetched)
           case ToSuccess(f) => success == old(success) + [f] && failure == old(failure)
           case ToFailure(f) => failure == old(failure) + [f] && success == old(success)
      ensures |incoming| + |success| + |failure| == |old(incoming)| + |old(success)| + |old(failure)|
    {
      if incoming == [] {
        return;
      }
      var head := incoming[0];
      incoming := incoming[1..];
      var auth := base.AddAuth(cfg, uri);
      var routed := Process(head, getAllProperties, auth.Completed?, listed, fetched);
      match routed
      case ToSuccess(f) => success := success + [f];
      case ToFailure(f) => failure := failure + [f];
    }
  }
}
