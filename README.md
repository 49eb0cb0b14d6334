# nifi-webdav processors in Dafny

This project models the core of the nifi-webdav processor bundle. The bundle is a set of NiFi processors that talk to a WebDAV server through the Sardine client library. Three processors are modelled:

- **AbstractWebDAVProcessor** is the shared base. The model covers the `domain` helper, `getProxyConfig`, and the credentials provider that `configureNTLM`, `configureProxy` and `addAuth` fill, keyed by authentication scope. The model keeps the invariant that an NT credential filed under a host scope carries the domain of that host.
- **ListWebDAV** is an incremental listing. It reads a cursor, normally the newest modification time already listed, from cluster state with `Long.parseLong`. It lists the remote collection and emits one empty FlowFile per resource modified strictly after the cursor, with `createAttributes`' attributes. It saves the larger of 0 and the newest emitted modification time with `String.valueOf`, and only when something was emitted. A `Run` of successive invocations is modelled as well. The model proves that the cursor never moves back, that a second pass over an unchanged listing emits nothing, and that no resource is emitted twice across a run.
- **FetchWebDAV** takes one FlowFile from its queue. When "Get All Properties" is set, it copies the remote resource's custom properties onto the FlowFile under `dav.`-prefixed keys. It replaces the content with the remote content and routes the FlowFile to success, or to failure penalized on any exception.

The modules are:

- `Wrappers`: `Option` and `Result`.
- `Longs`: Java `long`, `Long.parseLong` and `String.valueOf(long)`, with their round trip.
- `WebDAVTypes`: resources, FlowFiles, exceptions, and `putAllAttributes`.
- `AbstractWebDAV`, `ListWebDAV` and `FetchWebDAV`: one module per source class.

Each processor is a class whose methods update the state the host keeps for it:

- the credentials map;
- the cluster state map;
- the success, failure and incoming queues.

Java inheritance becomes composition: `ListWebDAVProcessor` and `FetchWebDAVProcessor` each hold the `WebDAVProcessor` whose credentials they update.

Exceptions are values of `Fault`. An invocation that throws ends in `Aborted`. The host then rolls back its session, so nothing reaches a relationship and the state is unchanged. Credentials already stored by `addAuth` stay, because the provider is a plain object outside the session.

I/O results are parameters:

- the listing, `None` for an `IOException`;
- the fetched content;
- whether the state can be read and written;
- the parsed URL, `None` for a `URISyntaxException`;
- the local host name lookup.

Points where the code's behaviour is easy to misread:

- **Undated resources.** A resource without a modification date is not skipped. `getModified().getTime()` at `ListWebDAV.java:125` throws `NullPointerException` on it. So `ListDAVFile` fails exactly when some listed resource is undated.
- **The saved cursor.** The code keeps a running maximum that starts at 0 and looks only at emitted resources. `MaxModifiedIsListingMax` proves that it equals the larger of 0 and the newest modification time in the whole listing whenever something is emitted, which is the only time the cursor is written. For a non-negative cursor, which is every cursor the processor saves itself, that is the newest modification time of an emitted resource (`MaxModifiedMeaning`).
- **Directory attribute.** The `@WritesAttribute` annotation at `ListWebDAV.java:48` documents `isDirectory`. The code writes the key `isDirecotry`, and the model uses that key. The documented `url` attribute (`ListWebDAV.java:49`) is never written.
- **A missing user name.** The credential classes of the HTTP client reject a null user name with `IllegalArgumentException`. So `configureNTLM` without NTLM, and `addAuth` with NTLM, throw when no user name is configured, and the model fails there too.
- **Properties kept on a failed download.** With "Get All Properties" set, the `dav.` attributes are merged into the FlowFile before the download. When only the download fails, the FlowFile routed to failure still carries them (`FetchWebDAV.java:92-98`).

## Model

| member | source | states |
|---|---|---|
| Longs.LongToString | nifi-webdav-processors/src/main/java/org/apache/nifi/processors/webdav/ListWebDAV.java:110 | `String.valueOf(long)` is never empty and starts with '-' exactly for negative values |
| Longs.DecimalRoundTrip | nifi-webdav-processors/src/main/java/org/apache/nifi/processors/webdav/ListWebDAV.java:93 | reading back the decimal digits of a natural number gives the number |
| Longs.ParseLongRoundTrip | nifi-webdav-processors/src/main/java/org/apache/nifi/processors/webdav/ListWebDAV.java:93 | `Long.parseLong(String.valueOf(n)) == n` for every `long`, so a saved cursor parses back without a `NumberFormatException` |
| Longs.LongToStringInjective | nifi-webdav-processors/src/main/java/org/apache/nifi/processors/webdav/ListWebDAV.java:110 | two different longs never get the same saved spelling |
| WebDAVTypes.PutAllAttributes | nifi-webdav-processors/src/main/java/org/apache/nifi/processors/webdav/FetchWebDAV.java:92 | the keys become the union of the old and new keys; new values win; other attributes, content and the penalty flag are unchanged |
| AbstractWebDAV.IndexOf | nifi-webdav-processors/src/main/java/org/apache/nifi/processors/webdav/AbstractWebDAVProcessor.java:244 | `indexOf` is -1 exactly when the character is absent; otherwise it is the position of its first occurrence |
| AbstractWebDAV.IndexOfAfterPrefix | nifi-webdav-processors/src/main/java/org/apache/nifi/processors/webdav/AbstractWebDAVProcessor.java:244 | a character absent from a prefix and placed right after it is first found at the prefix's length |
| AbstractWebDAV.Domain | nifi-webdav-processors/src/main/java/org/apache/nifi/processors/webdav/AbstractWebDAVProcessor.java:243-245 | fails with an index exception exactly when the host name has no dot; otherwise it returns the suffix from the first dot on, so the host name is a dot-free prefix followed by the result |
| AbstractWebDAV.DomainOfAccountNameFails | nifi-webdav-processors/src/main/java/org/apache/nifi/processors/webdav/AbstractWebDAVProcessor.java:243-245 | a dot-less name such as `domain\user` makes `domain` throw |
| AbstractWebDAV.DomainOfQualifiedHost | nifi-webdav-processors/src/main/java/org/apache/nifi/processors/webdav/AbstractWebDAVProcessor.java:243-245 | for any dot-free name followed by a dot and a rest, such as `files.example.org`, the domain is the dot and the rest (`.example.org`) |
| AbstractWebDAV.TrimToEmpty | nifi-webdav-processors/src/main/java/org/apache/nifi/processors/webdav/AbstractWebDAVProcessor.java:220 | null gives "". The result is "" exactly when every character is at or below U+0020. Otherwise it is a contiguous slice of the input that neither starts nor ends with such a character, and everything outside that slice is at or below U+0020 |
| AbstractWebDAV.GetProxyConfig | nifi-webdav-processors/src/main/java/org/apache/nifi/processors/webdav/AbstractWebDAVProcessor.java:211-227 | the proxy service's configuration wins. Otherwise host and port together give an HTTP proxy with that host and port, the trimmed user name and the password; it has a credential exactly when the trimmed user name is non-empty. Anything else is DIRECT without a credential |
| AbstractWebDAV.NTLMCredentials | nifi-webdav-processors/src/main/java/org/apache/nifi/processors/webdav/AbstractWebDAVProcessor.java:229-237 | with NTLM nothing changes. Without NTLM, a null user name throws `IllegalArgumentException` and nothing is stored; otherwise the ANY scope gets the configured user and password and no other scope changes. The domain invariant is kept |
| AbstractWebDAV.ProxyCredentials | nifi-webdav-processors/src/main/java/org/apache/nifi/processors/webdav/AbstractWebDAVProcessor.java:192-209 | a DIRECT proxy changes nothing. Otherwise the call throws exactly when the port is missing, or the host is missing, or an NTLM proxy credential is needed and either the local host lookup fails or the proxy host has no dot |
| AbstractWebDAV.ProxyCredentialsWritesOnlyProxyScope | nifi-webdav-processors/src/main/java/org/apache/nifi/processors/webdav/AbstractWebDAVProcessor.java:193-206 | only a non-DIRECT proxy with a credential stores anything. It stores only under the proxy host's scope, with the proxy user and password. The credential is NT exactly when proxy NTLM is on, and then carries the local host name and the proxy host's domain |
| AbstractWebDAV.ProxyCredentialsKeepDomains | nifi-webdav-processors/src/main/java/org/apache/nifi/processors/webdav/AbstractWebDAVProcessor.java:198-200 | `configureProxy` keeps the invariant that an NT credential under a host scope carries that host's domain |
| AbstractWebDAV.AddAuthCredentials | nifi-webdav-processors/src/main/java/org/apache/nifi/processors/webdav/AbstractWebDAVProcessor.java:255-268 | without NTLM, or for an unparsable URL, nothing changes. Otherwise it throws exactly when the URI has no host, the host has no dot, or the user name is null; with a dotted host the exception is `IllegalArgumentException`. On success the URL's host and port hold an NT credential with the configured user, password and workstation and the host's domain, and no other scope changes. The domain invariant is kept |
| AbstractWebDAV.WebDAVProcessor.constructor | nifi-webdav-processors/src/main/java/org/apache/nifi/processors/webdav/AbstractWebDAVProcessor.java:131-143 | the provider starts empty; the workstation is the local host name, or "localhost" when the lookup fails |
| AbstractWebDAV.WebDAVProcessor.ConfigureNTLM | nifi-webdav-processors/src/main/java/org/apache/nifi/processors/webdav/AbstractWebDAVProcessor.java:229-237 | the provider after the call is `NTLMCredentials` of the one before, or unchanged when that throws; the call completes exactly when it does not throw, and otherwise reports the exception |
| AbstractWebDAV.WebDAVProcessor.ConfigureProxy | nifi-webdav-processors/src/main/java/org/apache/nifi/processors/webdav/AbstractWebDAVProcessor.java:192-209 | the provider after the call is `ProxyCredentials` of the one before, or unchanged when that throws; the call completes exactly when it does not throw, and otherwise reports the exception |
| AbstractWebDAV.WebDAVProcessor.AddAuth | nifi-webdav-processors/src/main/java/org/apache/nifi/processors/webdav/AbstractWebDAVProcessor.java:255-268 | the provider after the call is `AddAuthCredentials` of the one before, or unchanged when that throws; the call completes exactly when it does not throw |
| AbstractWebDAV.WebDAVProcessor.CreateClientBuilder | nifi-webdav-processors/src/main/java/org/apache/nifi/processors/webdav/AbstractWebDAVProcessor.java:160-167 | NTLM configuration first: if it throws, the provider is unchanged and the exception is reported. Otherwise the proxy is configured on the result, and the call completes exactly when that does not throw. The domain invariant holds afterwards whenever it held before |
| ListWebDAV.ReadStateAsWritten | nifi-webdav-processors/src/main/java/org/apache/nifi/processors/webdav/ListWebDAV.java:159-165 | as written: an absent name gives the default; a present name gives the "lastModified" entry, or null when that key is absent |
| ListWebDAV.ReadState | nifi-webdav-processors/src/main/java/org/apache/nifi/processors/webdav/ListWebDAV.java:159-165 | as intended: a present name gives its own value, an absent one the default |
| ListWebDAV.SavedState | nifi-webdav-processors/src/main/java/org/apache/nifi/processors/webdav/ListWebDAV.java:167-171 | `saveState` replaces the whole state with the single entry for the name and value |
| ListWebDAV.ReadStateAgreesOnCursorKey | nifi-webdav-processors/src/main/java/org/apache/nifi/processors/webdav/ListWebDAV.java:159-165 | at its one call site, with the name "lastModified", `readState` as written returns the intended value |
| ListWebDAV.ReadStateAsWrittenReadsWrongKey | nifi-webdav-processors/src/main/java/org/apache/nifi/processors/webdav/ListWebDAV.java:162-163 | for another name present in the state, `readState` as written returns the "lastModified" entry instead |
| ListWebDAV.SavedStateReadsBack | nifi-webdav-processors/src/main/java/org/apache/nifi/processors/webdav/ListWebDAV.java:159-171 | with the intended `readState`, whatever `saveState` stores under a name reads back under that name |
| ListWebDAV.ReadStateAsWrittenLosesSavedValue | nifi-webdav-processors/src/main/java/org/apache/nifi/processors/webdav/ListWebDAV.java:159-171 | with `readState` as written, a value saved under any name but "lastModified" reads back as null |
| ListWebDAV.Cursor | nifi-webdav-processors/src/main/java/org/apache/nifi/processors/webdav/ListWebDAV.java:93 | with no "lastModified" entry the cursor is the default "0", parsed as 0; otherwise it is the stored value parsed by `Long.parseLong` |
| ListWebDAV.SavedCursorReadsBack | nifi-webdav-processors/src/main/java/org/apache/nifi/processors/webdav/ListWebDAV.java:167-171 | a cursor saved by `saveState` is exactly the cursor the next invocation reads |
| ListWebDAV.ListingAttributes | nifi-webdav-processors/src/main/java/org/apache/nifi/processors/webdav/ListWebDAV.java:141-157 | `filename`, `path`, `etag`, `mime.type` and `isDirecotry` are always present, with the resource's values and "true"/"false". `date.created` and `date.modified` are present exactly when the date is non-null, and each parses back to that date. No other key is written |
| ListWebDAV.CreateAttributes | nifi-webdav-processors/src/main/java/org/apache/nifi/processors/webdav/ListWebDAV.java:141-157 | the map built entry by entry is `ListingAttributes` of the resource |
| ListWebDAV.ListedFile | nifi-webdav-processors/src/main/java/org/apache/nifi/processors/webdav/ListWebDAV.java:135-139 | the FlowFile made for a listed resource carries exactly `ListingAttributes` of it, has empty content and is not penalized |
| ListWebDAV.CreateFile | nifi-webdav-processors/src/main/java/org/apache/nifi/processors/webdav/ListWebDAV.java:135-139 | `createFile` yields `ListedFile` of the resource: a new FlowFile with the attributes `createAttributes` builds |
| ListWebDAV.ListedFiles | nifi-webdav-processors/src/main/java/org/apache/nifi/processors/webdav/ListWebDAV.java:135-139 | one empty FlowFile per resource, in the same order, each carrying that resource's attributes |
| ListWebDAV.NewResources | nifi-webdav-processors/src/main/java/org/apache/nifi/processors/webdav/ListWebDAV.java:124-127 | the filter emits at most as many resources as were listed |
| ListWebDAV.MaxModified | nifi-webdav-processors/src/main/java/org/apache/nifi/processors/webdav/ListWebDAV.java:120-132 | the running maximum is at least 0, and is either 0 or above the cursor |
| ListWebDAV.NewIndicesIncrease | nifi-webdav-processors/src/main/java/org/apache/nifi/processors/webdav/ListWebDAV.java:124-127 | the positions the filter keeps are within the listing and strictly increasing |
| ListWebDAV.NewResourcesAtIndices | nifi-webdav-processors/src/main/java/org/apache/nifi/processors/webdav/ListWebDAV.java:124-127 | the emitted resources are the listing's entries at the kept positions |
| ListWebDAV.NewIndicesAreTheNewer | nifi-webdav-processors/src/main/java/org/apache/nifi/processors/webdav/ListWebDAV.java:124-127 | a position is kept exactly when its resource is modified strictly after the cursor |
| ListWebDAV.NewResourcesAreTheNewerOnes | nifi-webdav-processors/src/main/java/org/apache/nifi/processors/webdav/ListWebDAV.java:124-130 | the emitted resources are exactly the newer ones, in listing order, each once |
| ListWebDAV.NewResourcesAfterCursor | nifi-webdav-processors/src/main/java/org/apache/nifi/processors/webdav/ListWebDAV.java:126-127 | every emitted resource is newer than the cursor, and every newer listed resource is emitted |
| ListWebDAV.NewResourcesFromListing | nifi-webdav-processors/src/main/java/org/apache/nifi/processors/webdav/ListWebDAV.java:124-127 | every emitted resource comes from the listing |
| ListWebDAV.NothingNewIff | nifi-webdav-processors/src/main/java/org/apache/nifi/processors/webdav/ListWebDAV.java:107 | nothing is emitted exactly when no listed resource is newer than the cursor |
| ListWebDAV.ListingMaxIsMax | nifi-webdav-processors/src/main/java/org/apache/nifi/processors/webdav/ListWebDAV.java:128-129 | the listing maximum is at least 0 and at least every modification time, and is 0 or one of those times |
| ListWebDAV.MaxModifiedIsListingMax | nifi-webdav-processors/src/main/java/org/apache/nifi/processors/webdav/ListWebDAV.java:120-132 | the running maximum over emitted resources equals the maximum over the whole listing, taken from 0, when that exceeds the cursor, and 0 otherwise |
| ListWebDAV.MaxModifiedMeaning | nifi-webdav-processors/src/main/java/org/apache/nifi/processors/webdav/ListWebDAV.java:120-132 | with nothing emitted the result is 0. Otherwise it is above the cursor, fits a `long`, and bounds every listed modification time. For a non-negative cursor it is the time of an emitted resource |
| ListWebDAV.ListingStep | nifi-webdav-processors/src/main/java/org/apache/nifi/processors/webdav/ListWebDAV.java:124-131 | one more loop iteration over a dated resource keeps the prefix dated. A resource newer than the cursor extends the emitted resources and their FlowFiles by itself alone and raises the running maximum to its time if that is larger; an older one changes neither |
| ListWebDAV.ListDAVFile | nifi-webdav-processors/src/main/java/org/apache/nifi/processors/webdav/ListWebDAV.java:119-133 | a failed listing is an `IOException`; otherwise it fails with a null dereference exactly when some resource is undated; on success it returns the FlowFiles of the newer resources in order and the running maximum |
| ListWebDAV.TriggerFailsIff | nifi-webdav-processors/src/main/java/org/apache/nifi/processors/webdav/ListWebDAV.java:91-116 | the contract of `Trigger`: once the state is read and listed, an invocation fails exactly on an unparsable cursor (`NumberFormatException`) or an undated resource (`NullPointerException`); otherwise it is the pass from the parsed cursor |
| ListWebDAV.PassFrom | nifi-webdav-processors/src/main/java/org/apache/nifi/processors/webdav/ListWebDAV.java:107-115 | a pass emits the newer resources with their FlowFiles; it leaves the state alone when nothing is emitted, and otherwise saves the running maximum as the single "lastModified" entry |
| ListWebDAV.TriggerWritesOnlyWhenNew | nifi-webdav-processors/src/main/java/org/apache/nifi/processors/webdav/ListWebDAV.java:107-115 | the state changes exactly when something is emitted. It then becomes the single "lastModified" entry, whose cursor is the listing maximum and lies strictly above the old cursor |
| ListWebDAV.TriggerCursorMonotone | nifi-webdav-processors/src/main/java/org/apache/nifi/processors/webdav/ListWebDAV.java:54-57 | the cursor never decreases across a successful invocation |
| ListWebDAV.TriggerCoversEmitted | nifi-webdav-processors/src/main/java/org/apache/nifi/processors/webdav/ListWebDAV.java:107-115 | after an invocation the cursor is at or above the modification time of everything it emitted |
| ListWebDAV.TriggerIdempotent | nifi-webdav-processors/src/main/java/org/apache/nifi/processors/webdav/ListWebDAV.java:54-57 | a second invocation over an unchanged listing emits nothing and leaves the state as it is |
| ListWebDAV.TriggerStaysAbove | nifi-webdav-processors/src/main/java/org/apache/nifi/processors/webdav/ListWebDAV.java:54-57 | from a cursor of at least `t`, an invocation emits only resources newer than `t` and leaves a cursor of at least `t` |
| ListWebDAV.Attempt | nifi-webdav-processors/src/main/java/org/apache/nifi/processors/webdav/ListWebDAV.java:86-117 | an invocation emits a pass exactly when the listing and the state access succeed and `Trigger` succeeds, and that pass is `Trigger`'s |
| ListWebDAV.Run | nifi-webdav-processors/src/main/java/org/apache/nifi/processors/webdav/ListWebDAV.java:86-117 | a run has one entry per invocation, the first being the first invocation from the starting state; an aborted invocation hands the state on unchanged |
| ListWebDAV.AttemptStaysAbove | nifi-webdav-processors/src/main/java/org/apache/nifi/processors/webdav/ListWebDAV.java:54-57 | from a cursor of at least `t`, an invocation, completed or aborted, emits only resources newer than `t` and leaves a cursor of at least `t` |
| ListWebDAV.RunTail | nifi-webdav-processors/src/main/java/org/apache/nifi/processors/webdav/ListWebDAV.java:86-117 | invocation `k > 0` of a run is invocation `k - 1` of the run that starts from the state the first invocation leaves |
| ListWebDAV.RunStaysAbove | nifi-webdav-processors/src/main/java/org/apache/nifi/processors/webdav/ListWebDAV.java:54-57 | from a cursor of at least `t`, no invocation of a run, whatever earlier invocations aborted, emits anything modified at or before `t` |
| ListWebDAV.FirstPassNotRepeated | nifi-webdav-processors/src/main/java/org/apache/nifi/processors/webdav/ListWebDAV.java:54-57 | what the first invocation of a run emits, no later invocation emits, aborted invocations in between included |
| ListWebDAV.NeverEmittedTwice | nifi-webdav-processors/src/main/java/org/apache/nifi/processors/webdav/ListWebDAV.java:54-57 | across any run of invocations, including aborted ones, a resource emitted once (with an unchanged modification time) is never emitted again |
| ListWebDAV.CursorBetweenTwo | nifi-webdav-processors/src/main/java/org/apache/nifi/processors/webdav/ListWebDAV.java:124-131 | over two dated resources, a non-negative cursor between their times emits only the newer one, whose time becomes the running maximum |
| ListWebDAV.CursorPastTwo | nifi-webdav-processors/src/main/java/org/apache/nifi/processors/webdav/ListWebDAV.java:124-127 | over two dated resources, a cursor at or past both times emits nothing |
| ListWebDAV.CursorBetweenEmitsNewerOnly | nifi-webdav-processors/src/main/java/org/apache/nifi/processors/webdav/ListWebDAV.java:119-133 | resources at 1000 and 2000 with cursor 1500: only the second is emitted, and "2000" is saved |
| ListWebDAV.CursorAtNewestEmitsNothing | nifi-webdav-processors/src/main/java/org/apache/nifi/processors/webdav/ListWebDAV.java:107-115 | the same resources with cursor 2000: nothing is emitted and the state is left alone |
| ListWebDAV.ListWebDAVProcessor.OnTrigger | nifi-webdav-processors/src/main/java/org/apache/nifi/processors/webdav/ListWebDAV.java:86-117 | `addAuth` settles the credentials. The invocation completes exactly when authentication, the state read, the cursor parse and the listing succeed, and, if something is emitted, the state write too. It then appends the emitted FlowFiles to success and stores the new state. Any failure leaves state and success as they were |
| FetchWebDAV.Prefixed | nifi-webdav-processors/src/main/java/org/apache/nifi/processors/webdav/FetchWebDAV.java:108-116 | the keys are exactly the custom property names with "dav." in front, each keeping its value |
| FetchWebDAV.PrefixedInsert | nifi-webdav-processors/src/main/java/org/apache/nifi/processors/webdav/FetchWebDAV.java:112-114 | one more property adds exactly its prefixed entry, under a key not yet present |
| FetchWebDAV.PrefixedSize | nifi-webdav-processors/src/main/java/org/apache/nifi/processors/webdav/FetchWebDAV.java:111-114 | no two properties collide: the result has as many entries as there are custom properties |
| FetchWebDAV.PrefixedRoundTrip | nifi-webdav-processors/src/main/java/org/apache/nifi/processors/webdav/FetchWebDAV.java:112-114 | stripping "dav." from the result's keys gives back the custom properties |
| FetchWebDAV.GetProperties | nifi-webdav-processors/src/main/java/org/apache/nifi/processors/webdav/FetchWebDAV.java:108-116 | the loop over the custom properties yields exactly `PropertiesOf` the listing |
| FetchWebDAV.PropertiesOf | nifi-webdav-processors/src/main/java/org/apache/nifi/processors/webdav/FetchWebDAV.java:108-116 | a failed listing is an `IOException`; an empty listing fails on `get(0)`; otherwise the result has one entry per custom property of the first entry, each under its "dav." key with its value, and stripping the prefix gives the properties back |
| FetchWebDAV.Penalized | nifi-webdav-processors/src/main/java/org/apache/nifi/processors/webdav/FetchWebDAV.java:97 | `penalize` marks the FlowFile for back-off and keeps its attributes and content |
| FetchWebDAV.FetchRoute | nifi-webdav-processors/src/main/java/org/apache/nifi/processors/webdav/FetchWebDAV.java:84-100 | success exactly when authentication, the requested properties and the download all succeed. Success carries the fetched content. Failure keeps the original content and is penalized. Without the properties flag the attributes are untouched. With it, a successful FlowFile carries the merged prefixed properties, and a FlowFile that failed only on the download keeps the merged properties too |
| FetchWebDAV.FetchedPropertiesArePrefixed | nifi-webdav-processors/src/main/java/org/apache/nifi/processors/webdav/FetchWebDAV.java:91-93 | with "Get All Properties" set, a FlowFile routed to success carries each custom property of the resource under its "dav." key |
| FetchWebDAV.Process | nifi-webdav-processors/src/main/java/org/apache/nifi/processors/webdav/FetchWebDAV.java:86-100 | the inner try, step by step (authenticate, optionally merge the properties, import the content), routes the FlowFile exactly as `FetchRoute` says |
| FetchWebDAV.FetchWebDAVProcessor.OnTrigger | nifi-webdav-processors/src/main/java/org/apache/nifi/processors/webdav/FetchWebDAV.java:79-106 | with an empty queue nothing changes. Otherwise the head of the queue is taken and goes to exactly one of success or failure, as `FetchRoute` says. No FlowFile is lost or duplicated |

## Left out

- Network I/O goes through the Sardine client and the host's state manager. It is modelled only by its outcomes, passed as parameters: the listing, the fetched content, state readable or writable, and the URL parse.
- The HTTP client builder is not modelled. This covers `setProxy`, `setProxyAuthenticationStrategy`, `setDefaultCredentialsProvider`, `useSystemProperties`, `buildSardine` and `configureSSL` with its key and trust stores. Only the credentials map they configure is modelled.
- The local host name lookup (`InetAddress.getLocalHost`) is a parameter. The model keeps only its "localhost" fallback in `workstation()`.
- `ListWebDAV`'s search depth is passed through to the client and is not modelled.
- `Longs.ParseLong` accepts ASCII digits only. `Long.parseLong` also accepts other Unicode decimal digits, which the model does not cover.
- The client library's normalisation is not modelled. `AuthScope` lower-cases host names and `NTCredentials` upper-cases workstation and domain. Scopes and credentials are kept exactly as the code passes them.
- `HttpHost` also rejects blank host names. The model covers only a null host, which is an `IllegalArgumentException`.
- `AbstractWebDAV.HasCredential` treats the proxy user name as blank only when it is empty. The host's own `hasCredential` is not part of this model.
- The host's session rollback is an assumption of the model: after an exception nothing reaches a relationship and the state is unchanged.
- `context.yield()` and the outer catch of `FetchWebDAV.onTrigger` (`FetchWebDAV.java:101-105`) are not modelled. `buildSardine` runs inside the inner try, so an exception there routes the FlowFile to failure like any other. The outer catch is reached only when `penalize`, `transfer` or the logging in the inner catch throws. None of those can throw in the model, so that catch is never reached.
- `FetchWebDAV` reads "Get All Properties" and the URL from expression language over the FlowFile. The model receives them already evaluated.
- `session.putAllAttributes` also treats special attributes such as `uuid`. The model merges plain maps.
- FlowFile identity is not modelled. A FlowFile is a value: its attributes, content and penalty flag.
- Concurrency across cluster nodes is not modelled: no two invocations of the listing run at once.
- PutWebDAV and DeleteWebDAV are not part of this model. PutWebDAV only has a TODO for missing collections (`PutWebDAV.java:81`), and DeleteWebDAV deletes without checking whether a collection is empty.

## Findings

| source | as written | input that shows it | evidently intended | confidence | as-written member | corrected member |
|---|---|---|---|---|---|---|
| nifi-webdav-processors/src/main/java/org/apache/nifi/processors/webdav/ListWebDAV.java:162-163 | `readState` checks whether `name` is present but then returns the value of the fixed key "lastModified" | state {"cursor": "7", "lastModified": "3"} read with name "cursor" gives "3"; a state saved as {"cursor": "7"} reads back null | return the value stored under `name`, or the default | not executed; latent, since the only call passes "lastModified", where both readings agree (`ListWebDAV.ReadStateAgreesOnCursorKey`) | ListWebDAV.ReadStateAsWritten (shown by ListWebDAV.ReadStateAsWrittenReadsWrongKey, ListWebDAV.ReadStateAsWrittenLosesSavedValue) | ListWebDAV.ReadState (ListWebDAV.SavedStateReadsBack) |
