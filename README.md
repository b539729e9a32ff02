# jrt-controller core, modelled in Dafny

jrt-controller runs real-time applications beside a jbpf agent. Applications
exchange data through a router keyed by 128-bit stream ids. They are loaded
into the controller through a REST shim. They are driven from `jrtc-ctl`, a
Go command-line tool that loads codelet sets and runs a protobuf decoder.
This project models the logic of that core and proves what it promises.
Networking, threads, dynamic loading and the foreign algorithms it calls are
not modelled (see "Left out").

The modules follow the source:

- **Stream ids.**
  - `StreamIdCodec` (stream_id.dfy): the 16-byte id, its five bit fields, the
    set/get/apply-mask macros and the subset match.
  - `StreamIdGen`: id generation from 54-bit Bloom fingerprints of the path
    and the name.
  - `RouterBitmap`: the router's bit array and its iterator.
  - `GoStreamId`, `StreamIdText` and `Destination`: the Go view of an id, its
    RFC 4122 (section 3) text form, and the named destinations.
- **Router.**
  - `RouterLookup`: the 16 wildcard probe keys and the ring sizing.
  - `Router`: app registration, subscription requests, forwarding into
    bounded rings, and receiving.
- **Controller runtime.**
  - `JrtcConfig`: `${NAME}` expansion and the YAML event state machine.
  - `Sched`: the scheduling request built for each policy.
  - `ControllerApps`: the 64-slot application table, `load_app`/`unload_app`
    and `concat`. Memory is accounted for by handles.
  - `Logging` and `CString`: log prefixes, domains, level filtering and the
    C string searches they use.
  - `PythonLoader`: the folder and module name of a Python app.
  - `JrtcAppWrapper`: the C/C++ app wrapper's `Init`, dispatch and
    `CleanUp`.
- **REST shim.** `RestApi`: `$NAME`/`${NAME}` expansion of app parameters
  and the load, unload and list handlers over the list of loaded apps.
- **Decoder.**
  - `CacheStore`: the two-tier store.
  - `DecoderServer`: schema and stream registration.
  - `ServeData`: datagram splitting.
  - `DecoderRun`: the decode lookup chain and the consumer loop.
  - `DecoderType`: decoder type names and default ports.
- **Command-line tool.**
  - `CliConfig`: merging, defaults, environment expansion and device
    validation.
  - `JbpfCodeletConfig`: defaults, serde checks and linked-map ordering.
  - `JbpfLoad`: the decoder schemas and the codelet-set load request.
  - `LogUploader`: comma-joined batches sent as JSON arrays.
  - `HashInput` with `DecimalText`: the hashed input of
    `GenerateHashFromStrings`.
  - `LoadRequest`: the application-load request.

Imperative code is modelled as classes and methods with loop invariants,
proved against specification functions. Pure code is modelled as functions,
with lemmas stating its properties. Where the code is wrong, both versions
exist: the code as written, with a lemma exhibiting the failure, and the
corrected code, which the rest of the model uses (see "Findings").

## Model

| member | source | states |
|---|---|---|
| StreamIdCodec.AnyValue | src/stream_id/jrtc_router_stream_id.h:75-93 | the wildcard of each field (DEST_ANY, DEVICE_ID_ANY, STREAM_PATH_ANY, STREAM_NAME_ANY) is all ones in that field's width |
| StreamIdCodec.GetVer | src/stream_id/jrtc_router_stream_id.h:172 | the version read from any id fits 6 bits |
| StreamIdCodec.GetFwdDst | src/stream_id/jrtc_router_stream_id.h:174 | the destination read from any id fits 7 bits |
| StreamIdCodec.GetDeviceId | src/stream_id/jrtc_router_stream_id.h:176 | the device id read from any id fits 7 bits |
| StreamIdCodec.GetStreamPath | src/stream_id/jrtc_router_stream_id.h:178-181 | corrected (unsigned char): the path read from any id fits 54 bits |
| StreamIdCodec.GetStreamName | src/stream_id/jrtc_router_stream_id.h:183-186 | corrected (unsigned char): the name read from any id fits 54 bits |
| StreamIdCodec.Decode | src/stream_id/jrtc_router_stream_id.h:172-186 | the five fields read from any id are each within their width |
| StreamIdCodec.Encode | src/stream_id/jrtc_router_stream_id.h:143-170 | the id written from five values depends only on each value's bits within its width (6, 7, 7, 54, 54) |
| StreamIdCodec.SetVer | src/stream_id/jrtc_router_stream_id.h:143 | setting the version touches only byte 0, and keeps its low two bits |
| StreamIdCodec.SetFwdDst | src/stream_id/jrtc_router_stream_id.h:145-147 | setting the destination touches only bytes 0 and 1, and keeps byte0[7:2] and byte1[2:0] |
| StreamIdCodec.SetDeviceId | src/stream_id/jrtc_router_stream_id.h:149-151 | setting the device id touches only bytes 1 and 2, and keeps byte1[7:3] and byte2[3:0] |
| StreamIdCodec.SetStreamPath | src/stream_id/jrtc_router_stream_id.h:153-161 | setting the path touches only bytes 2-9, and keeps byte2[7:4] and byte9[5:0] |
| StreamIdCodec.SetStreamName | src/stream_id/jrtc_router_stream_id.h:163-170 | setting the name touches only bytes 9-15, and keeps byte9[7:6] |
| StreamIdCodec.ApplyVer | src/stream_id/jrtc_router_stream_id.h:114 | the version apply-mask touches only byte 0 and never clears a bit |
| StreamIdCodec.ApplyFwdDst | src/stream_id/jrtc_router_stream_id.h:116-118 | the destination apply-mask touches only bytes 0 and 1 and never clears a bit |
| StreamIdCodec.ApplyDeviceId | src/stream_id/jrtc_router_stream_id.h:120-122 | the device apply-mask touches only bytes 1 and 2 and never clears a bit |
| StreamIdCodec.ApplyStreamPath | src/stream_id/jrtc_router_stream_id.h:124-132 | the path apply-mask touches only bytes 2-9 and never clears a bit |
| StreamIdCodec.ApplyStreamName | src/stream_id/jrtc_router_stream_id.h:134-141 | the name apply-mask touches only bytes 9-15 and never clears a bit |
| StreamIdCodec.MatchesReq | src/stream_id/jrtc_router_stream_id.h:313-323 | an id matches a request equal to itself, and the all-ones request matches every id |
| StreamIdCodec.DecodeEncode | src/stream_id/jrtc_router_stream_id.h:143-186 | reading the five fields back from an encoded id gives each value cut to its width (6, 7, 7, 54, 54 bits): no two fields overlap |
| StreamIdCodec.DecodePack | src/stream_id/jrtc_router_stream_id.h:143-186 | the same for the reference bit layout, field by field |
| StreamIdCodec.EncodeDecode | src/stream_id/jrtc_router_stream_id.h:172-186 | encoding the five fields read from any id gives that id back: the fields cover all 128 bits |
| StreamIdCodec.FieldsDetermineId | src/stream_id/jrtc_router_stream_id.h:172-186 | two ids with equal fields are equal |
| StreamIdCodec.TruncatedInRange | src/stream_id/jrtc_router_stream_id.h:143-170 | values that fit their widths are stored unchanged |
| StreamIdCodec.VerBits | src/stream_id/jrtc_router_stream_id.h:172 | the version getter reads only byte0[7:2] |
| StreamIdCodec.FwdDstBits | src/stream_id/jrtc_router_stream_id.h:174 | the destination getter reads only byte0[1:0] and byte1[7:3] |
| StreamIdCodec.DeviceIdBits | src/stream_id/jrtc_router_stream_id.h:176 | the device getter reads only byte1[2:0] and byte2[7:4] |
| StreamIdCodec.StreamPathBits | src/stream_id/jrtc_router_stream_id.h:178-181 | the path getter reads only byte2[3:0], bytes 3-8 and byte9[7:6] |
| StreamIdCodec.StreamNameBits | src/stream_id/jrtc_router_stream_id.h:183-186 | the name getter reads only byte9[5:0] and bytes 10-15 |
| StreamIdCodec.GetSetVer | src/stream_id/jrtc_router_stream_id.h:143 | get after set returns the version cut to 6 bits |
| StreamIdCodec.GetSetFwdDst | src/stream_id/jrtc_router_stream_id.h:145-147 | get after set returns the destination cut to 7 bits |
| StreamIdCodec.GetSetDeviceId | src/stream_id/jrtc_router_stream_id.h:149-151 | get after set returns the device id cut to 7 bits |
| StreamIdCodec.GetSetStreamPath | src/stream_id/jrtc_router_stream_id.h:153-161 | get after set returns the path cut to 54 bits |
| StreamIdCodec.GetSetStreamName | src/stream_id/jrtc_router_stream_id.h:163-170 | get after set returns the name cut to 54 bits |
| StreamIdCodec.SetVerFields | src/stream_id/jrtc_router_stream_id.h:143 | setting the version changes that field only; the other four read back unchanged |
| StreamIdCodec.SetFwdDstFields | src/stream_id/jrtc_router_stream_id.h:145-147 | setting the destination changes that field only |
| StreamIdCodec.SetDeviceIdFields | src/stream_id/jrtc_router_stream_id.h:149-151 | setting the device id changes that field only |
| StreamIdCodec.SetStreamPathFields | src/stream_id/jrtc_router_stream_id.h:153-161 | setting the path changes that field only |
| StreamIdCodec.SetStreamNameFields | src/stream_id/jrtc_router_stream_id.h:163-170 | setting the name changes that field only |
| StreamIdCodec.SetAllEncodes | src/stream_id/jrtc_router_stream_id.h:143-170 | the five set macros in a row overwrite every bit: the result is the encoding of the fields, whatever the id held before |
| StreamIdCodec.SetAllFields | src/stream_id/jrtc_router_stream_id.h:143-170 | after the five set macros every field reads back as its value cut to width |
| StreamIdCodec.ApplyVerIsSet | src/stream_id/jrtc_router_stream_id.h:114 | the version apply-mask equals setting the version to the old version OR the value |
| StreamIdCodec.ApplyFwdDstIsSet | src/stream_id/jrtc_router_stream_id.h:116-118 | the same for the destination |
| StreamIdCodec.ApplyDeviceIdIsSet | src/stream_id/jrtc_router_stream_id.h:120-122 | the same for the device id |
| StreamIdCodec.ApplyStreamPathIsSet | src/stream_id/jrtc_router_stream_id.h:124-132 | the same for the path |
| StreamIdCodec.ApplyStreamNameIsSet | src/stream_id/jrtc_router_stream_id.h:134-141 | the same for the name |
| StreamIdCodec.ApplyVerFields | src/stream_id/jrtc_router_stream_id.h:114 | apply-mask ORs the value, cut to width, into the version and leaves the other fields unchanged |
| StreamIdCodec.ApplyFwdDstFields | src/stream_id/jrtc_router_stream_id.h:116-118 | the same for the destination |
| StreamIdCodec.ApplyDeviceIdFields | src/stream_id/jrtc_router_stream_id.h:120-122 | the same for the device id |
| StreamIdCodec.ApplyStreamPathFields | src/stream_id/jrtc_router_stream_id.h:124-132 | the same for the path |
| StreamIdCodec.ApplyStreamNameFields | src/stream_id/jrtc_router_stream_id.h:134-141 | the same for the name |
| StreamIdCodec.ApplyZero | src/stream_id/jrtc_router_stream_id.h:114-141 | applying a zero value leaves the id unchanged |
| StreamIdCodec.ApplyAnyVer | src/stream_id/jrtc_router_stream_id.h:114 | applying the all-ones version is setting the version to all ones |
| StreamIdCodec.ApplyAnyFwdDst | src/stream_id/jrtc_router_stream_id.h:116-118 | applying DEST_ANY is setting the destination to DEST_ANY |
| StreamIdCodec.ApplyAnyDeviceId | src/stream_id/jrtc_router_stream_id.h:120-122 | applying DEVICE_ID_ANY is setting the device id to it |
| StreamIdCodec.ApplyAnyStreamPath | src/stream_id/jrtc_router_stream_id.h:124-132 | applying STREAM_PATH_ANY is setting the path to it |
| StreamIdCodec.ApplyAnyStreamName | src/stream_id/jrtc_router_stream_id.h:134-141 | applying STREAM_NAME_ANY is setting the name to it |
| StreamIdCodec.WordAnd | src/stream_id/jrtc_router_stream_id.h:318 | ANDing two little-endian 32-bit words ANDs their bytes |
| StreamIdCodec.WordInjective | src/stream_id/jrtc_router_stream_id.h:318 | distinct byte quadruples read as distinct words |
| StreamIdCodec.WordInBytes | src/stream_id/jrtc_router_stream_id.h:318 | one word's bits are among another's iff that holds for each of the four bytes |
| StreamIdCodec.MatchesReqIsByteSubset | src/stream_id/jrtc_router_stream_id.h:313-323 | the word-wise match is true iff for every byte i, sid[i] & req[i] == sid[i] |
| StreamIdCodec.MatchesReqReflexive | src/stream_id/jrtc_router_stream_id.h:313-323 | every id matches itself |
| StreamIdCodec.MatchesReqTransitive | src/stream_id/jrtc_router_stream_id.h:313-323 | matching is transitive |
| StreamIdCodec.MatchesReqAntisymmetric | src/stream_id/jrtc_router_stream_id.h:313-323 | two ids that match each other are equal |
| StreamIdCodec.MatchesAllOnes | src/stream_id/jrtc_router_stream_id.h:313-323 | the all-ones request accepts every id |
| StreamIdCodec.WildcardFwdDst | src/stream_id/jrtc_router_stream_id.h:313-323 | a request that is an id with its destination set to all ones accepts that id with any destination |
| StreamIdCodec.WildcardDeviceId | src/stream_id/jrtc_router_stream_id.h:313-323 | the same for the device id |
| StreamIdCodec.WildcardStreamPath | src/stream_id/jrtc_router_stream_id.h:313-323 | the same for the path |
| StreamIdCodec.WildcardStreamName | src/stream_id/jrtc_router_stream_id.h:313-323 | the same for the name |
| StreamIdCodec.MatchesReqNotSymmetric | src/stream_id/jrtc_router_stream_id.h:313-323 | a concrete id matches a wildcard request, but the wildcard does not match the concrete id |
| StreamIdCodec.StreamPathSignedCharDiffers | src/stream_id/jrtc_router_stream_id.h:178-181 | read with signed char, a byte 0x97 in the path sign-extends: the value is at least 2^54 and differs from the field |
| StreamIdCodec.StreamNameSignedCharDiffers | src/stream_id/jrtc_router_stream_id.h:183-186 | read with signed char, a byte 0x80 at byte 15 sets all the name's upper bits |
| StreamIdCodec.GetStreamPathSignedChar | src/stream_id/jrtc_router_stream_id.h:178-181 | the macro with each byte a sign-extending `char` agrees with the unsigned reading whenever the bytes it shifts into place are below 0x80 |
| StreamIdCodec.GetStreamNameSignedChar | src/stream_id/jrtc_router_stream_id.h:183-186 | the same for the stream name: below 0x80 the signed and unsigned readings agree |
| StreamIdGen.FilterBits | src/stream_id/jrtc_router_stream_id.c:55-67 | the bits of a clear filter after one add: bit k is set iff some seed below n hashes there modulo the size |
| StreamIdGen.BloomFilter.constructor | src/stream_id/jrtc_router_stream_id.c:31-43 | a filter over the given bitmap, with its size and hash count |
| StreamIdGen.BloomInit | src/stream_id/jrtc_router_stream_id.c:31-43 | None exactly when the bitmap cannot be allocated; otherwise a filter of the requested size and hash count over a clear bitmap |
| StreamIdGen.BloomAdd | src/stream_id/jrtc_router_stream_id.c:55-67 | afterwards a bit is set iff it was set before or some seed below nHash hashes there modulo the size |
| StreamIdGen.BloomContains | src/stream_id/jrtc_router_stream_id.c:70-86 | true iff the bit of every seed is set |
| StreamIdGen.NoFalseNegative | src/stream_id/jrtc_router_stream_id.c:55-86 | after adding an element, every seed's bit is set, so the filter reports it |
| StreamIdGen.ExtractBits | src/stream_id/jrtc_router_stream_id.c:90-113 | 0 when more than 64 bits or more bits than the filter holds are asked for; otherwise the word with a bit for each of the first n set bits of the filter |
| StreamIdGen.MaskOfBit | src/stream_id/jrtc_router_stream_id.c:104-110 | bit b of the word the loop ORs together is set iff b is one of the indices |
| StreamIdGen.BitIsShift | src/stream_id/jrtc_router_stream_id.c:110 | the doubling form of a bit equals 1 << k for every k below 64 |
| StreamIdGen.OrBit64 | src/stream_id/jrtc_router_stream_id.c:110 | ORing in bit a sets bit a and no other |
| StreamIdGen.FingerprintBit | src/stream_id/jrtc_router_stream_id.c:115-133 | bit i of a path or name fingerprint is set iff some seed j below 38 has hash(name, j) mod 54 == i |
| StreamIdGen.FingerprintFits | src/stream_id/jrtc_router_stream_id.c:115-133 | a fingerprint is below 2^54 |
| StreamIdGen.FingerprintNonZero | src/stream_id/jrtc_router_stream_id.c:115-133 | a fingerprint is never 0 |
| StreamIdGen.GetHash | src/stream_id/jrtc_router_stream_id.c:115-133 | the fingerprint of the name, or 0 when the filter's bitmap cannot be allocated |
| StreamIdGen.StreamIdBuf.constructor | src/stream_id/jrtc_router_stream_id.c:236-240 | a caller's id buffer holding the given bytes |
| StreamIdGen.SetVerOf | src/stream_id/jrtc_router_stream_id.c:136-143 | on a non-NULL id, writes the version's low 6 bits and no other field; NULL is ignored |
| StreamIdGen.SetFwdDstOf | src/stream_id/jrtc_router_stream_id.c:146-153 | the same for the destination's low 7 bits |
| StreamIdGen.SetDeviceIdOf | src/stream_id/jrtc_router_stream_id.c:156-163 | the same for the device id's low 7 bits |
| StreamIdGen.SetStreamPathOf | src/stream_id/jrtc_router_stream_id.c:166-173 | the same for the path's low 54 bits |
| StreamIdGen.SetStreamNameOf | src/stream_id/jrtc_router_stream_id.c:176-183 | the same for the name's low 54 bits |
| StreamIdGen.VerOf | src/stream_id/jrtc_router_stream_id.c:186-193 | the version field (at most 0x3F), or 0 for NULL |
| StreamIdGen.FwdDstOf | src/stream_id/jrtc_router_stream_id.c:196-203 | the destination field (at most 0x7F), or 0 for NULL |
| StreamIdGen.DeviceIdOf | src/stream_id/jrtc_router_stream_id.c:206-213 | the device field (at most 0x7F), or 0 for NULL |
| StreamIdGen.StreamPathOf | src/stream_id/jrtc_router_stream_id.c:216-223 | corrected (unsigned char): the path field (below 2^54), or 0 for NULL |
| StreamIdGen.StreamNameOf | src/stream_id/jrtc_router_stream_id.c:226-233 | corrected (unsigned char): the name field (below 2^54), or 0 for NULL |
| StreamIdGen.GenerateStreamId | src/stream_id/jrtc_router_stream_id.c:236-278 | returns 1 or -1; -1 exactly on a NULL buffer or a failed fingerprint, leaving a non-NULL buffer zeroed; on 1 the id is the encoding of version 0, the low 7 bits of destination and device, and the path and name fingerprints (STREAM_PATH_ANY or STREAM_NAME_ANY when absent), so nothing of the old bytes survives |
| RouterBitmap.Bitmap.Bits | src/stream_id/jrtc_router_bitmap.h:16-20 | the abstract value of the word array: one flag per bit, size of them |
| RouterBitmap.Bitmap.constructor | src/stream_id/jrtc_router_bitmap.h:40-62 | a bitmap of the given size with every bit clear |
| RouterBitmap.Create | src/stream_id/jrtc_router_bitmap.h:40-62 | NULL when either allocation fails; otherwise a fresh bitmap of size bits, all clear |
| RouterBitmap.OrBit | src/stream_id/jrtc_router_bitmap.h:78 | ORing 1 << a into a word sets bit a and keeps every other bit |
| RouterBitmap.Set | src/stream_id/jrtc_router_bitmap.h:70-80 | an in-range index becomes set and no other bit changes; NULL or an index at or beyond the size changes nothing |
| RouterBitmap.Get | src/stream_id/jrtc_router_bitmap.h:89-101 | 1 or 0 as the bit is set, for an index in range; -1 for NULL or an index at or beyond the size |
| RouterBitmap.SetFromSpec | src/stream_id/jrtc_router_bitmap.h:143-154 | the indices left to enumerate are exactly the set bits at or after the cursor, strictly ascending |
| RouterBitmap.Iterator.constructor | src/stream_id/jrtc_router_bitmap.h:109-114 | the iterator starts at index 0 with every set bit still to come |
| RouterBitmap.Iterator.HasNext | src/stream_id/jrtc_router_bitmap.h:122-135 | true iff a set bit remains; the iterator does not move |
| RouterBitmap.Iterator.Next | src/stream_id/jrtc_router_bitmap.h:143-154 | the lowest remaining set index, with the cursor just past it; once none remain, (uint32_t)-1 with the cursor at the size |
| GoStreamId.GoStreamPath | tools/jrtc-ctl/jrtcbindings/router_stream_id.go:80-83 | the path as seven bytes, whose big-endian value is the 54-bit path field |
| GoStreamId.GoStreamName | tools/jrtc-ctl/jrtcbindings/router_stream_id.go:86-89 | the name as seven bytes, whose big-endian value is the 54-bit name field |
| GoStreamId.GoShortFieldsAgree | tools/jrtc-ctl/jrtcbindings/router_stream_id.go:62-77 | the Go version, destination and device getters read the same values as the C getters |
| GoStreamId.GoStreamPathAgrees | tools/jrtc-ctl/jrtcbindings/router_stream_id.go:80-83 | the Go path bytes spell the C path field, and their first byte holds only 6 bits |
| GoStreamId.GoStreamNameAgrees | tools/jrtc-ctl/jrtcbindings/router_stream_id.go:86-89 | the Go name bytes spell the C name field, and their first byte holds only 6 bits |
| GoStreamId.Format | tools/jrtc-ctl/jrtcbindings/router_stream_id.go:101-132 | formatting only ever clears bits: every bit set in the result is set in the original id |
| GoStreamId.FormatVer | tools/jrtc-ctl/jrtcbindings/router_stream_id.go:102-104 | after Format the version reads 0 when cleared and as before otherwise |
| GoStreamId.FormatFwdDst | tools/jrtc-ctl/jrtcbindings/router_stream_id.go:105-108 | the same for the forwarding destination |
| GoStreamId.FormatDeviceId | tools/jrtc-ctl/jrtcbindings/router_stream_id.go:109-112 | the same for the device id |
| GoStreamId.FormatStreamPath | tools/jrtc-ctl/jrtcbindings/router_stream_id.go:113-122 | the same for the stream path |
| GoStreamId.FormatStreamName | tools/jrtc-ctl/jrtcbindings/router_stream_id.go:123-131 | the same for the stream name |
| GoStreamId.FormatFields | tools/jrtc-ctl/jrtcbindings/router_stream_id.go:101-132 | Format zeroes exactly the selected fields: each selected field reads 0 and every other field reads as before |
| GoStreamId.FormatNoFlags | tools/jrtc-ctl/jrtcbindings/router_stream_id.go:101-132 | with no flag set Format changes nothing |
| GoStreamId.FormatAllFlags | tools/jrtc-ctl/jrtcbindings/router_stream_id.go:101-132 | with all five flags Format leaves sixteen zero bytes |
| GoStreamId.ClearedTwice | tools/jrtc-ctl/jrtcbindings/router_stream_id.go:101-132 | clearing a field record twice clears the fields either configuration selects |
| GoStreamId.FormatTwice | tools/jrtc-ctl/jrtcbindings/router_stream_id.go:101-132 | two Format calls clear the fields either one selects |
| GoStreamId.FormatIdempotent | tools/jrtc-ctl/jrtcbindings/router_stream_id.go:101-132 | Format is idempotent |
| GoStreamId.FormatCommutes | tools/jrtc-ctl/jrtcbindings/router_stream_id.go:101-132 | the order of two Format calls does not matter |
| GoStreamId.Matches | tools/jrtc-ctl/jrtcbindings/router_stream_id.go:54-59 | never an error; true iff each byte of the id is a bit subset of the request's byte |
| GoStreamId.GenerateStreamID | tools/jrtc-ctl/jrtcbindings/router_stream_id.go:35-51 | an error and the all-zero id exactly when a fingerprint fails; otherwise the C encoding of version 0, destination and device cut to 7 bits, and the fingerprints (wildcards when absent) |
| GoStreamId.GeneratedGetters | tools/jrtc-ctl/jrtcbindings/router_stream_id.go:62-77 | a generated id reads back version 0 and the destination and device id as given when they fit in 7 bits |
| RouterDestination.NamesDistinct | tools/jrtc-ctl/jrtcbindings/router_destination.go:28-38 | the three canonical names are distinct, the three C-style names are distinct, and there are three canonical names |
| RouterDestination.NameOfFromName | tools/jrtc-ctl/jrtcbindings/router_destination.go:29-33 | a string is in the canonical table exactly when it is one of the three names, and the destination it maps to is named back by that same string |
| RouterDestination.FromNameNameOf | tools/jrtc-ctl/jrtcbindings/router_destination.go:29-33 | every named destination's canonical name maps back to that destination |
| RouterDestination.Init | tools/jrtc-ctl/jrtcbindings/router_destination.go:44-51 | walking the canonical table in any order yields the reverse table built entry by entry and the list of names in the walk's order |
| RouterDestination.ReverseOfEnumeration | tools/jrtc-ctl/jrtcbindings/router_destination.go:44-51 | whatever order the map is walked in, the reverse table holds exactly the named destinations, each mapped to its canonical name, and the name list holds every canonical name |
| RouterDestination.ReverseEntries | tools/jrtc-ctl/jrtcbindings/router_destination.go:47-50 | the reverse table built from any list of consistent entries has exactly the destinations of those entries, each mapped to its name |
| RouterDestination.DestinationFromString | tools/jrtc-ctl/jrtcbindings/router_destination.go:54-64 | no error exactly when the string is a canonical or a C-style name, and then the destination is named; otherwise DestinationNone and the "unrecognized" error naming the string |
| RouterDestination.DestinationString | tools/jrtc-ctl/jrtcbindings/router_destination.go:66-68 | the empty string exactly for a destination without a name, else its canonical name |
| RouterDestination.FromStringOfString | tools/jrtc-ctl/jrtcbindings/router_destination.go:54-68 | parsing a named destination's string gives back the destination without error |
| RouterDestination.StringOfFromString | tools/jrtc-ctl/jrtcbindings/router_destination.go:54-68 | a string that parses gives a destination whose string parses to the same destination |
| RouterDestination.SpellingsAgree | tools/jrtc-ctl/jrtcbindings/router_destination.go:28-38 | the canonical and the C-style tables name the same three destinations |
| RouterLookup.LookupMasksAreAllSubsets | src/router/jrtc_router.c:50-113 | the 16 rows of the lookup table are distinct and are every subset of the four maskable fields; the version is never masked |
| RouterLookup.FwdStep | src/stream_id/jrtc_router_stream_id.h:114-141 | applying the forwarding mask sets that field to ANY when masked and leaves every other field unchanged |
| RouterLookup.DevStep | src/stream_id/jrtc_router_stream_id.h:114-141 | applying the device mask sets that field to ANY when masked and leaves every other field unchanged |
| RouterLookup.PathStep | src/stream_id/jrtc_router_stream_id.h:114-141 | applying the path mask sets that field to ANY when masked and leaves every other field unchanged |
| RouterLookup.NameStep | src/stream_id/jrtc_router_stream_id.h:114-141 | applying the name mask sets that field to ANY when masked and leaves every other field unchanged |
| RouterLookup.LookupKeyFields | src/router/jrtc_router.c:192-197 | a probe key is the incoming id with exactly the masked fields replaced by their ANY values; the version and unmasked fields are kept |
| RouterLookup.ApplyFwdDstAddsBits | src/stream_id/jrtc_router_stream_id.h:114-118 | the forwarding-mask step only adds bits to the id |
| RouterLookup.ApplyDeviceIdAddsBits | src/stream_id/jrtc_router_stream_id.h:120-122 | the device-mask step only adds bits to the id |
| RouterLookup.ApplyStreamPathAddsBits | src/stream_id/jrtc_router_stream_id.h:124-132 | the path-mask step only adds bits to the id |
| RouterLookup.ApplyStreamNameAddsBits | src/stream_id/jrtc_router_stream_id.h:134-141 | the name-mask step only adds bits to the id |
| RouterLookup.ByteSubsetTransitive | src/stream_id/jrtc_router_stream_id.h:313-323 | the "only adds bits" relation composes |
| RouterLookup.MatchesLookupKey | src/router/jrtc_router.c:192-197 | the incoming id matches, in the sense of the request-matching macro, every key probed for it |
| RouterLookup.ProbeMeaning | src/router/jrtc_router.c:192-210 | an app is in the union after probing some rows exactly when it registered the key of one of them |
| RouterLookup.RecipientsMeaning | src/router/jrtc_router.c:186-210 | an app receives an id exactly when it registered that id with some subset of the four fields set to ANY |
| RouterLookup.RecipientsMatch | src/router/jrtc_router.c:186-210 | every recipient registered a key the incoming id matches |
| RouterLookup.RecipientsNarrowerThanMatching | src/router/jrtc_router.c:50-113 | the converse fails: a request with the version bits set matches a version-0 id but is never probed |
| RouterLookup.RoundUpIsLeastPowerOfTwo | src/router/jrtc_router.c:38-48 | for 1 <= x <= 2^31 the macro gives the least power of two that is at least x |
| RouterLookup.RoundUpWraps | src/router/jrtc_router.c:38-48 | at 0 and above 2^31 the 32-bit arithmetic wraps the result to 0 |
| RouterLookup.RoundUpPowOfTwo | src/router/jrtc_router.c:38-48 | the 32-bit macro gives 0 or a power of two that is at least its argument |
| RouterLookup.RingHoldsQueue | src/router/jrtc_router.c:591 | a ring of round_up_pow_of_two(q + 1) slots has more than q slots for every accepted queue size |
| Router.FirstClear | src/router/jrtc_router.c:502-518 | -1 exactly when every bit is set; otherwise a clear bit with every lower bit set |
| Router.RegisteredApps | src/router/jrtc_router.c:667-733 | registering changes only the app set under the asked-for id, adding the app to it |
| Router.DeregisteredApps | src/router/jrtc_router.c:746-788 | deregistering changes only the app set under the id, removing the app from it |
| Router.RegisteredIdempotent | src/router/jrtc_router.c:667-733 | asking twice for the same id leaves the table as asking once |
| Router.UpdatesKeepTableOk | src/router/jrtc_router.c:667-788 | both updates keep every stored app set non-empty and within the 128 app ids |
| Router.DeregisterUndoesRegister | src/router/jrtc_router.c:667-788 | withdrawing a request the app had not made before restores the table |
| Router.RegisteredReceives | src/router/jrtc_router.c:192-210 | an app that asked for exactly an id receives that id |
| Router.Enqueue | src/router/jrtc_router.c:219-238 | an entry is appended to an app's ring only when the app is a recipient and its pool has a free entry; the ring never exceeds the queue size |
| Router.Delivered | src/router/jrtc_router.c:216-239 | offering one entry changes no app outside the recipients and keeps the set of apps |
| Router.DeliveredBetweenEnds | src/router/jrtc_router.c:214-217 | a full iterator walk delivers to every recipient, an exhausted walk delivers nothing |
| Router.DeliveredAllRing | src/router/jrtc_router.c:216-241 | delivering a whole batch to a recipient with room appends every buffer, in order, tagged with the stream id |
| Router.ForwardDropsLaterBuffers | src/router/jrtc_router.c:214-241 | a recipient with room for two buffers gets one from the code as written and both from the intended code |
| Router.Tagged | src/router/jrtc_router.c:813-817 | one entry per buffer, in order |
| Router.ChannelTake | src/router/jrtc_router.c:806-819 | the channel reads never return more entries than are still wanted |
| Router.ChannelTakeBatches | src/router/jrtc_router.c:809-812 | each channel gives at most one batch of JRTC_ROUTER_DATA_BATCH_SIZE entries |
| Router.ChannelTakeFrom | src/router/jrtc_router.c:806-819 | reading from a channel onwards reads that channel's batch first, then the rest with what is still wanted |
| Router.SendOutput | src/router/jrtc_router.c:827-836 | -1 for a NULL channel, otherwise the submit's result |
| Router.SendOutputMsg | src/router/jrtc_router.c:838-857 | -1 for a NULL channel, NULL data, zero length or no free buffer; otherwise the submit's result |
| Router.CpuSetStep | src/router/jrtc_router.c:474-498 | the CPU set of the first i + 1 bits is that of the first i, plus CPU i when its bit is set |
| Router.CpuSetEmpty | src/router/jrtc_router.c:474-498 | the zero mask names no CPU |
| Router.CpuSetUnion | src/router/jrtc_router.c:474-498 | ORing two masks unites their CPU sets |
| Router.OrMeets | src/router/jrtc_router.c:474-498 | a bit of an OR of masks is set exactly when it is set in one of them |
| Router.CpuSetSingle | src/router/jrtc_router.c:474-498 | the mask with only bit k set names only CPU k |
| Router.BitMeets | src/router/jrtc_router.c:474-498 | two single-bit masks share a bit exactly when they are the same bit |
| Router.SetCpuAffinity | src/router/jrtc_router.c:474-498 | -1 and no CPU for a NULL context; otherwise the CPUs applied are exactly those whose bits are set, and the result is 0 or -1 as the call succeeds |
| Router.RouterCtx.constructor | src/router/jrtc_router.c:306-399 | a router with every app id free, no apps and no requests |
| Router.RouterCtx.ReserveNewApp | src/router/jrtc_router.c:502-518 | the result is the lowest free id, now taken, or -1 with the bitmap unchanged when all 128 are taken |
| Router.RouterCtx.ReleaseApp | src/router/jrtc_router.c:520-524 | clears exactly the id's bit |
| Router.RouterCtx.RegisterApp | src/router/jrtc_router.c:528-611 | succeeds exactly when the queue size is at most 10000, an id is free and every allocation succeeds; then the lowest free id holds an app with an empty ring of round_up_pow_of_two(size + 1) slots; on failure nothing changes |
| Router.RouterCtx.DeregisterApp | src/router/jrtc_router.c:613-654 | a NULL app changes nothing; otherwise the app leaves the registry and its id is released, and its requests stay in the table |
| Router.RouterCtx.RegisterStreamIdReq | src/router/jrtc_router.c:666-733 | 1 exactly when the app id is within [0, 128) and the key is present or its insert succeeds, and then the app joins the key's set; otherwise -1 and the table is unchanged |
| Router.RouterCtx.DeregisterStreamIdReq | src/router/jrtc_router.c:745-788 | for a valid app the table becomes the one with the app removed from the key's set and an emptied key removed; otherwise it is unchanged |
| Router.RouterCtx.LookupRecipients | src/router/jrtc_router.c:186-210 | the lookup result is the set of recipients of the id |
| Router.RouterCtx.Offer | src/router/jrtc_router.c:217-239 | the iterator walks to the end, and the apps become those with the entry offered from the iterator's position on |
| Router.RouterCtx.ForwardMsgs | src/router/jrtc_router.c:159-242 | as written: nothing for a NULL channel or an empty batch; otherwise every buffer is released but only the first is delivered to the recipients |
| Router.RouterCtx.ForwardMsgsIntended | src/router/jrtc_router.c:159-242 | corrected: every buffer of the batch is delivered, in order, to every recipient, and every buffer is released |
| Router.RouterCtx.DequeueRing | src/router/jrtc_router.c:798-802 | returns the oldest min(n, ring length) entries and leaves the rest in the ring |
| Router.RouterCtx.Receive | src/router/jrtc_router.c:790-825 | the oldest ring entries up to the number wanted, then what the input channels give for the rest; the ring loses exactly what was returned |
| Router.ReadChannels | src/router/jrtc_router.c:805-822 | the entries read are those of the channel-read specification |
| CacheStore.MemoryHitIgnoresRemote | tools/jrtc-ctl/services/cache/store.go:47-51 | a memory hit returns the cached value whatever the remote tier holds, and changes nothing |
| CacheStore.DisabledMissNotFound | tools/jrtc-ctl/services/cache/store.go:53-56 | with the remote tier disabled a memory miss is "not found" and changes nothing |
| CacheStore.FetchOnlyCaches | tools/jrtc-ctl/services/cache/store.go:36-72 | a Get changes neither the remote tier nor any memory entry other than the key's, and writes that one only with the remote value it found |
| CacheStore.FetchCaches | tools/jrtc-ctl/services/cache/store.go:36-72 | a Get only copies remote entries into memory |
| CacheStore.CachesTransitive | tools/jrtc-ctl/services/cache/store.go:36-72 | two rounds of copying remote entries into memory are one such round |
| CacheStore.CachesKeepsAnswers | tools/jrtc-ctl/services/cache/store.go:36-72 | copying remote entries into memory changes no answer of a Get whose remote round trip succeeds |
| CacheStore.FetchIdempotent | tools/jrtc-ctl/services/cache/store.go:47-71 | a value found once is found again from memory, with no further change |
| CacheStore.FetchAfterPut | tools/jrtc-ctl/services/cache/store.go:75-95 | after a Set, even one whose remote write failed, a Get of the key returns the value set |
| CacheStore.FetchAfterPutFromRemote | tools/jrtc-ctl/services/cache/store.go:58-71 | after a successful remote Set, a Get that misses memory answers the value's JSON round trip, not the value, and caches it |
| CacheStore.FetchAfterPutOther | tools/jrtc-ctl/services/cache/store.go:75-95 | a Set does not change what a Get of another key returns |
| CacheStore.PutNoRollback | tools/jrtc-ctl/services/cache/store.go:84-94 | a failed remote write is reported, and the memory tier still holds the new value |
| CacheStore.FetchAfterRemove | tools/jrtc-ctl/services/cache/store.go:98-112 | after a Delete that succeeded, a Get of the key misses (or reports the remote fault) |
| CacheStore.RemoveOnlyKey | tools/jrtc-ctl/services/cache/store.go:98-112 | a Delete leaves every other key's entry in both tiers alone |
| CacheStore.TransformErrorChangesNothing | tools/jrtc-ctl/services/cache/store.go:40-43 | a key the transformer rejects makes Get, Set and Delete return that error and change nothing |
| CacheStore.EqualTransformsShareEntry | tools/jrtc-ctl/services/cache/store.go:36-112 | two keys transformed to the same string read and write one entry |
| CacheStore.Fetch | tools/jrtc-ctl/services/cache/store.go:36-72 | a read never changes the remote tier and changes memory only by caching the remote value on a miss; a value returned comes from memory or, on a miss, from the remote tier; an error comes only from the remote tier after a memory miss |
| CacheStore.Put | tools/jrtc-ctl/services/cache/store.go:75-95 | a write always stores the value in memory; the remote tier gets its round-tripped copy when enabled and the write does not fail, and is untouched otherwise |
| CacheStore.Remove | tools/jrtc-ctl/services/cache/store.go:98-112 | a delete always removes the key from memory; the remote tier loses it when enabled and the delete does not fail, and is untouched otherwise |
| CacheStore.Store.constructor | tools/jrtc-ctl/services/cache/store.go:24-33 | an empty memory tier over the client's remote tier, with the given key transformer and JSON round trip |
| CacheStore.Store.Get | tools/jrtc-ctl/services/cache/store.go:36-72 | the result and the new tiers are those of the Get specification on the old tiers |
| CacheStore.Store.Set | tools/jrtc-ctl/services/cache/store.go:75-95 | the error and the new tiers are those of the Set specification on the old tiers, Redis receiving the marshalled value |
| CacheStore.Store.Delete | tools/jrtc-ctl/services/cache/store.go:98-112 | the error and the new tiers are those of the Delete specification on the old tiers |
| DecoderServer.SchemaKey | tools/jrtc-ctl/services/decoder/server.go:79-81 | the schema key is "schema/" followed by the package name, never an error |
| DecoderServer.SchemaKeyInjective | tools/jrtc-ctl/services/decoder/server.go:79-81 | distinct package names have distinct schema keys |
| DecoderServer.Ext | tools/jrtc-ctl/services/decoder/server.go:133 | the extension is a suffix of the path that is empty or starts with the last '.' of the last path element and holds no other '.' or '/'; it is empty only when every '.' is followed by a '/' |
| DecoderServer.PackageName | tools/jrtc-ctl/services/decoder/server.go:132-133 | the package name followed by the file's extension is the file name |
| DecoderServer.PackageNameDropsExtension | tools/jrtc-ctl/services/decoder/server.go:133 | "a.pb" names package "a" |
| DecoderServer.PackageNameDropsFinalExtensionOnly | tools/jrtc-ctl/services/decoder/server.go:133 | "a.b.pb" names package "a.b": only the final extension is dropped |
| DecoderServer.PackageNameKeepsDirectoryDots | tools/jrtc-ctl/services/decoder/server.go:133 | "d.e/f" has no extension: a '.' in a directory name is kept |
| DecoderServer.SchemaRoundTrip | tools/jrtc-ctl/services/decoder/server.go:57-60 | a descriptor record read back from Redis keeps its descriptor but has the zero checksum, the field being unexported |
| DecoderServer.Upsert | tools/jrtc-ctl/services/decoder/server.go:122-167 | a successful upsert leaves the descriptor and its checksum in memory under "schema/" and the package name; Redis is written only by a successful upsert with the remote tier enabled |
| DecoderServer.Bind | tools/jrtc-ctl/services/decoder/server.go:170-213 | binding only caches in the schema store; Redis is written only by a successful bind, which leaves the association in memory under the stream's key |
| DecoderServer.Unbind | tools/jrtc-ctl/services/decoder/server.go:216-238 | after a successful unbind the stream's key is not in memory; a failed unbind leaves Redis as it was |
| DecoderServer.UpsertNeedsOneFile | tools/jrtc-ctl/services/decoder/server.go:126-143 | a descriptor set of other than one file is refused with InvalidArgument, or panics on an empty set, before either tier is read or written |
| DecoderServer.UpsertThenUpsertAgain | tools/jrtc-ctl/services/decoder/server.go:145-166 | a successful upsert stores the descriptor and its checksum in memory under "schema/" and the package name, and upserting the same descriptor again over that memory answers "already exists, checksum matches" and changes nothing |
| DecoderServer.UpsertOverwrites | tools/jrtc-ctl/services/decoder/server.go:145-166 | an upsert with a different checksum overwrites the stored package |
| DecoderServer.ReupsertAfterMemoryMissOverwrites | tools/jrtc-ctl/services/decoder/server.go:145-166 | once memory has lost a package whose record reached Redis, upserting the very same descriptor again overwrites it and answers OK, because the checksum read back is zero |
| DecoderServer.BindBoundStream | tools/jrtc-ctl/services/decoder/server.go:181-191 | binding a stream that is already bound writes nothing: the same binding answers OK with "already has a schema association", a different one AlreadyExists |
| DecoderServer.BindUnknownPackage | tools/jrtc-ctl/services/decoder/server.go:193-200 | binding an unbound stream to an unregistered package answers NotFound and writes nothing |
| DecoderServer.BindThenBindAgain | tools/jrtc-ctl/services/decoder/server.go:170-213 | after a successful bind the stream reads as bound to that association, and binding it again the same way changes nothing |
| DecoderServer.UnbindUnbound | tools/jrtc-ctl/services/decoder/server.go:223-226 | unbinding a stream that is not bound answers OK and changes nothing |
| DecoderServer.UnbindThenLookup | tools/jrtc-ctl/services/decoder/server.go:216-235 | after a successful unbind the stream reads as unbound |
| DecoderServer.Server.constructor | tools/jrtc-ctl/services/decoder/server.go:69-95 | fresh stores over the client's remote tier, the schema store keyed by "schema/" and the association store by the stream-id transform |
| DecoderServer.Server.UpsertProtoPackage | tools/jrtc-ctl/services/decoder/server.go:122-167 | the reply and the new schema tiers are those of the upsert specification |
| DecoderServer.Server.AddStreamToSchemaAssociation | tools/jrtc-ctl/services/decoder/server.go:170-213 | the reply and the new tiers of both stores are those of the bind specification |
| DecoderServer.Server.DeleteStreamToSchemaAssociation | tools/jrtc-ctl/services/decoder/server.go:216-238 | the reply and the new association tiers are those of the unbind specification |
| DecoderRun.AssociationKey | tools/jrtc-ctl/cmd/decoder/run/run.go:85-98 | an error exactly when the bytes are not 16 long; otherwise "streamToSchema/" followed by the 36-character canonical text of the id |
| DecoderRun.AssociationKeySharedIff | tools/jrtc-ctl/cmd/decoder/run/run.go:91-97 | two ids share an association key exactly when their stream path and stream name agree |
| DecoderRun.AssociationIgnoresClearedFields | tools/jrtc-ctl/cmd/decoder/run/run.go:91-95 | ids that differ only in version, forwarding destination or device id share one association |
| DecoderRun.DecodeOnlyCaches | tools/jrtc-ctl/cmd/decoder/run/run.go:165-228 | decoding a datagram changes neither store's answers: the only change is remote entries cached in memory |
| DecoderRun.DecodeChain | tools/jrtc-ctl/cmd/decoder/run/run.go:172-227 | an unbound stream is reported as "no schema found for stream UUID", an unregistered package as "no schema found for proto package", and otherwise the payload is decoded with the bound package's descriptor and the bound message name |
| DecoderRun.AttemptDecode | tools/jrtc-ctl/cmd/decoder/run/run.go:165-228 | the result and the new tiers of both stores are those of the decoding specification |
| DecoderRun.DecodeDatagram | tools/jrtc-ctl/cmd/decoder/run/run.go:165-228 | decoding one datagram never writes a remote tier; a key error is returned unchanged with nothing cached; with the remote tier off and no association in memory the answer is the no-schema error for the stream |
| DecoderRun.ConsumeAsWritten | tools/jrtc-ctl/cmd/decoder/run/run.go:110-152 | the loop as written, in which both closed-queue branches clear the decoder's flag, returns where the exit specification with that flag twice says |
| DecoderRun.Consume | tools/jrtc-ctl/cmd/decoder/run/run.go:110-152 | corrected: with the UDP branch clearing its own flag the loop returns where the exit specification with one flag per queue says |
| DecoderRun.AsWrittenExitsOnlyOnCancel | tools/jrtc-ctl/cmd/decoder/run/run.go:113-150 | as written the loop returns exactly at the first cancellation and never because both queues closed |
| DecoderRun.ExtendNoCancel | tools/jrtc-ctl/cmd/decoder/run/run.go:113-150 | a non-cancelling event in front of a cancel-free stretch keeps it cancel-free |
| DecoderRun.BothClosedKeepsRunning | tools/jrtc-ctl/cmd/decoder/run/run.go:115-140 | closing both queues leaves the loop as written running, and ends the corrected loop |
| DecoderRun.ConsumeExits | tools/jrtc-ctl/cmd/decoder/run/run.go:113-150 | the corrected loop returns only at a cancellation or once both queues have closed, and keeps running only when neither has happened |
| DecoderRun.ExitFrom | tools/jrtc-ctl/cmd/decoder/run/run.go:110-152 | the loop exits only at a cancellation or a close event, never at a data event, exits at the first cancellation or earlier, and always exits when a cancellation comes |
| DecoderData.Frame | tools/jrtc-ctl/services/decoder/serve_data.go:47-53 | a record exactly for a datagram of at least 16 bytes |
| DecoderData.FrameSplits | tools/jrtc-ctl/services/decoder/serve_data.go:51-53 | the record's stream id followed by its payload is the datagram |
| DecoderData.StopAt | tools/jrtc-ctl/services/decoder/serve_data.go:27-42 | the index of the first cancellation, read error or failure to set the read deadline, every observation before it being a datagram or a timeout |
| DecoderData.ServeStops | tools/jrtc-ctl/services/decoder/serve_data.go:27-42 | the loop ends at the first cancellation with no error, at the first read error with the read error joined with "error reading from UDP socket", or at the first failure to set the read deadline with that error alone |
| DecoderData.ServeKeepsQueue | tools/jrtc-ctl/services/decoder/serve_data.go:55-59 | the queue keeps what it held as a prefix, and grows only while below capacity |
| DecoderData.ServeEnqueuesAll | tools/jrtc-ctl/services/decoder/serve_data.go:27-61 | with room for every record, the records of all datagrams before the stop are enqueued in arrival order |
| DecoderData.ShortDatagramSkipped | tools/jrtc-ctl/services/decoder/serve_data.go:47-50 | a datagram shorter than 16 bytes enqueues nothing |
| DecoderData.FullQueueDrops | tools/jrtc-ctl/services/decoder/serve_data.go:55-59 | a full queue drops the record and keeps its contents |
| DecoderData.OutQueue.constructor | tools/jrtc-ctl/services/decoder/serve_data.go:55-59 | an empty queue of the given capacity |
| DecoderData.OutQueue.TrySend | tools/jrtc-ctl/services/decoder/serve_data.go:55-59 | the record is sent exactly when the queue is below capacity, and the queue becomes the push specification's |
| DecoderData.ServeData | tools/jrtc-ctl/services/decoder/serve_data.go:14-62 | the result and the final queue are those of the loop specification over the observations |
| DecoderData.Serve | tools/jrtc-ctl/services/decoder/serve_data.go:27-61 | serving only appends to the queue, never grows it past its capacity, and stops without an error only at a cancellation |
| JrtcConfig.CloseBrace | src/controller/jrtc_config.c:33 | a position found holds '}' and lies at or after the start |
| JrtcConfig.CloseBraceIsFirst | src/controller/jrtc_config.c:33 | no '}' lies before the one found, and none at all when none is found |
| JrtcConfig.MatchAt | src/controller/jrtc_config.c:33-38 | a match at a position is "${", a non-empty name without '}', and '}' |
| JrtcConfig.MatchAtIff | src/controller/jrtc_config.c:33-38 | a match starts at a position exactly when "${", a non-empty run without '}', and '}' start there |
| JrtcConfig.Leftmost | src/controller/jrtc_config.c:38 | the match found is the leftmost at or after the start, and none is found only when no position matches |
| JrtcConfig.Expand | src/controller/jrtc_config.c:38-64 | a finished expansion leaves no "${NAME}" in the text |
| JrtcConfig.ExpandNoMatch | src/controller/jrtc_config.c:38 | text without a match is returned unchanged |
| JrtcConfig.Substitute | src/controller/jrtc_config.c:43-61 | replacing one `${name}` loses its 3 + length characters and gains the value's |
| JrtcConfig.SubstituteKeepsContext | src/controller/jrtc_config.c:43-61 | the text before the match is kept, the value (empty when unset) follows, then the text after the closing brace |
| JrtcConfig.ExpandStep | src/controller/jrtc_config.c:38-64 | one step replaces the leftmost match by the variable's value and scans the result again from the front |
| JrtcConfig.SelfReferenceDiverges | src/controller/jrtc_config.c:38-64 | "${A}" with A set to "${A}" substitutes forever |
| JrtcConfig.SubstitutedValueExpandsAgain | src/controller/jrtc_config.c:38-64 | a substituted value is scanned again: "${A}" with A set to "${B}" and B to "x" gives "x" |
| JrtcConfig.UnsetVariableIsEmpty | src/controller/jrtc_config.c:43-49 | an unset variable is replaced by the empty string |
| JrtcConfig.NamespaceExpansion | src/controller/jrtc_config.c:38-64 | "jrtc_${ID}" with ID set to "1234" gives "jrtc_1234" |
| JrtcConfig.ExpandEnvVars | src/controller/jrtc_config.c:16-68 | nothing exactly for a NULL input, otherwise the result of the expansion specification |
| JrtcConfig.Truncate | src/controller/jrtc_config.c:86-93 | strncpy into a zeroed buffer keeps a prefix of the text: all of it when it fits, and exactly the buffer size less one characters when it does not |
| JrtcConfig.Defaults | src/controller/jrtc_config.c:70-95 | the default configuration: affinity mask 2, no affinity mask or scheduling flag, policy 0, priority 99, deadline 30000000, runtime 10000000, period 30000000, memory size 1 GiB |
| JrtcConfig.AtoiExamples | src/controller/jrtc_config.c:150-165 | atoi reads "3" as 3, " -7x" as -7 and "abc" as 0 |
| JrtcConfig.Atoi | src/controller/jrtc_config.c:150-165 | the integer read from a text with no '-' is non-negative, and one with no digit at all reads as 0 |
| JrtcConfig.DigitsValueAppend | src/controller/jrtc_config.c:150-165 | reading digits on past a run of digits continues from the value of that run |
| JrtcConfig.DigitsValueDecimal | src/controller/jrtc_config.c:150-165 | the digits of a number as printed read back as that number |
| JrtcConfig.AtoiSkipsSpace | src/controller/jrtc_config.c:150-165 | leading white space does not change the value read |
| JrtcConfig.AtoiSigned | src/controller/jrtc_config.c:150-165 | a leading '-' negates the digits that follow and a leading '+' keeps them |
| JrtcConfig.AtoiReadsDecimal | src/controller/jrtc_config.c:150-165 | white space, an optional sign, a number's decimal digits and then anything not starting with a digit read as that number, negated after '-' |
| JrtcConfig.ToU64 | src/controller/jrtc_config.c:161-165 | a value stored into an unsigned 64-bit field lies in its range and is unchanged when it already fits |
| JrtcConfig.ApplyValue | src/controller/jrtc_config.c:140-194 | a value never sets the affinity-mask flag and never touches the I/O type or memory size |
| JrtcConfig.Run | src/controller/jrtc_config.c:127-229 | the event loop ends with 0 or -1, and never changes the I/O type, the memory size or whether an affinity mask is set |
| JrtcConfig.Configure | src/controller/jrtc_config.c:97-232 | the return code is 0 or -1; the I/O type and memory size stay the defaults; an undefined result needs a named, opened file and a ready parser |
| JrtcConfig.SetConfigValues | src/controller/jrtc_config.c:97-232 | the outcome is that of the configuration specification: the defaults, 0 for a NULL file name, -1 for a file or parser failure, otherwise the event loop |
| JrtcConfig.NoFileGivesDefaults | src/controller/jrtc_config.c:100-105 | without a file name the result is 0 and the defaults |
| JrtcConfig.ParseErrorKeepsEarlierFields | src/controller/jrtc_config.c:128-133 | a parse error returns -1 and keeps every field set before it |
| JrtcConfig.RunFrom | src/controller/jrtc_config.c:127-229 | running from the start is running from the state reached after any prefix of events that does not end the loop |
| JrtcConfig.IpcNameWritesBoth | src/controller/jrtc_config.c:179-188 | an ipc_name in the router section is written, truncated, both to the router's and to the jbpf I/O IPC name |
| JrtcConfig.RunKeepsInvariant | src/controller/jrtc_config.c:127-229 | the event loop never sets has_affinity_mask and leaves the memory size and I/O type alone |
| JrtcConfig.ConfigureKeepsInvariant | src/controller/jrtc_config.c:97-232 | every defined outcome keeps that invariant and returns 0 or -1 |
| JrtcConfig.RunReturnCode | src/controller/jrtc_config.c:127-231 | the event loop returns 0 or -1 |
| JrtcConfig.HasSchedConfigIsTrueText | src/controller/jrtc_config.c:151-153 | has_sched_config is set exactly when the value is the text "true" |
| JrtcConfig.UnknownKeyIgnored | src/controller/jrtc_config.c:140-194 | a key no section knows changes nothing |
| JrtcConfig.NoSectionNoEffect | src/controller/jrtc_config.c:140-194 | outside every section a value changes nothing |
| RestApi.FirstDollar | src/rest_api_lib/src/lib.rs:161 | a position found holds '$' at or after the cursor |
| RestApi.FirstNonAlphanumeric | src/rest_api_lib/src/lib.rs:179 | a position found is the first at or after the cursor whose character is not alphanumeric; none is found exactly when every character from the cursor on is alphanumeric |
| RestApi.TrimBraces | src/rest_api_lib/src/lib.rs:169 | the trimmed name is no longer than the text, neither starts nor ends with a brace, and is empty exactly when the text is all braces |
| RestApi.TrimBracesSlice | src/rest_api_lib/src/lib.rs:169 | the trimmed name is a contiguous slice of the text, and everything before and after it is a brace |
| RestApi.Prepend | src/rest_api_lib/src/lib.rs:162 | prepending text keeps whether the expansion finishes and puts the text in front |
| RestApi.PrependTwice | src/rest_api_lib/src/lib.rs:162 | prepending two texts in turn is prepending their concatenation |
| RestApi.PassAt | src/rest_api_lib/src/lib.rs:161-189 | a pass that advances moves the cursor forward and stays within the input |
| RestApi.BracedPass | src/rest_api_lib/src/lib.rs:165-176 | a pass at "${" always advances, past the closing brace or past the '$' |
| RestApi.SimplePass | src/rest_api_lib/src/lib.rs:177-188 | a pass at any other '$' either advances the cursor or leaves it in place |
| RestApi.ExpandAsWritten | src/rest_api_lib/src/lib.rs:156-193 | the loop as written, from a cursor; it can spin forever only over a text that holds '$' |
| RestApi.NextPass | src/rest_api_lib/src/lib.rs:161-189 | one iteration of the loop body computes the pass specification |
| RestApi.ExpandEnvVars | src/rest_api_lib/src/lib.rs:156-193 | the loop computes the expansion as written, including its non-terminating case |
| RestApi.Head | src/rest_api_lib/src/lib.rs:156-193 | the intended token at the front of the text covers at least one character, and a character other than '$' stands for itself |
| RestApi.Expand | src/rest_api_lib/src/lib.rs:156-193 | corrected: the evidently intended expansion; with no variable set it never lengthens the text |
| RestApi.ExpandWithoutDollar | src/rest_api_lib/src/lib.rs:161-191 | text without '$' is returned unchanged |
| RestApi.ExpandCopiesPlainPrefix | src/rest_api_lib/src/lib.rs:162 | a prefix without '$' is copied and expansion carries on after it |
| RestApi.OnlyBracedFrom | src/rest_api_lib/src/lib.rs:165 | when every '$' opens a braced name, every later '$' is followed by '{' |
| RestApi.ExpandAsWrittenStep | src/rest_api_lib/src/lib.rs:161-191 | one advancing pass followed by a finishing loop finishes with the pass's text in front |
| RestApi.CloseBraceShift | src/rest_api_lib/src/lib.rs:167 | the first '}' of a suffix is the first '}' of the whole at the shifted position |
| RestApi.FirstDollarSkips | src/rest_api_lib/src/lib.rs:161 | no '$' lies between the cursor and the first '$' found |
| RestApi.ExpandFromPlain | src/rest_api_lib/src/lib.rs:162 | the intended expansion of a suffix copies a plain stretch at its front |
| RestApi.ExpandBracedAt | src/rest_api_lib/src/lib.rs:165-172 | at a closed "${NAME}" the intended expansion emits the variable's value and carries on after the brace |
| RestApi.ExpandUnclosedAt | src/rest_api_lib/src/lib.rs:173-176 | at a "${" that is never closed the '$' stands for itself |
| RestApi.ExpandSimpleAt | src/rest_api_lib/src/lib.rs:177-188 | corrected: at a non-empty "$NAME" the intended expansion emits the variable's value and carries on from the character that ends the name, which is kept |
| RestApi.ExpandToDollar | src/rest_api_lib/src/lib.rs:161-163 | the intended expansion copies the text up to the first '$' |
| RestApi.PassAgrees | src/rest_api_lib/src/lib.rs:161-189 | a pass that emits what the intended expansion does agrees with it when the rest of the loop does |
| RestApi.NoDollarAgrees | src/rest_api_lib/src/lib.rs:161-191 | without a '$' left, both expansions copy the rest |
| RestApi.ClosedPass | src/rest_api_lib/src/lib.rs:165-172 | the pass at a closed "${NAME}" emits the text before it and the variable's value and moves past the brace |
| RestApi.UnclosedPass | src/rest_api_lib/src/lib.rs:173-176 | the pass at an unclosed "${" emits the text before it and '$' and moves past the '$' |
| RestApi.ClosedAgrees | src/rest_api_lib/src/lib.rs:165-172 | over a closed "${NAME}" the loop as written agrees with the intended expansion when the rest does |
| RestApi.UnclosedAgrees | src/rest_api_lib/src/lib.rs:173-176 | over an unclosed "${" the loop as written agrees with the intended expansion when the rest does |
| RestApi.BracedAgree | src/rest_api_lib/src/lib.rs:156-193 | with only braced names the loop as written finishes and agrees with the intended expansion |
| RestApi.SimpleNameReemitsLastCharacter | src/rest_api_lib/src/lib.rs:184 | "$AB/" with AB set to "v" gives "vB/" as written and "v/" as intended |
| RestApi.DoubleDollarLoops | src/rest_api_lib/src/lib.rs:179-184 | "$$" never finishes as written; the intended expansion keeps both characters |
| RestApi.TrailingSimpleNameKept | src/rest_api_lib/src/lib.rs:185-188 | a trailing "$NAME" with nothing after it is kept as it is, in both expansions |
| RestApi.UnclosedBraceKept | src/rest_api_lib/src/lib.rs:173-176 | "${A" without a closing brace is kept as it is, in both expansions |
| RestApi.ConvertedMeaning | src/rest_api_lib/src/lib.rs:229-236 | mapping `expand_env_vars` and `CString::new(..).unwrap()` over every parameter succeeds exactly when each expansion finishes free of NUL, and then yields those expansions in order |
| RestApi.ConvertPrefix | src/rest_api_lib/src/lib.rs:229-236 | once a prefix of the parameters has converted, the rest alone decides the outcome |
| RestApi.FirstFailureDecides | src/rest_api_lib/src/lib.rs:229-236 | the first parameter whose expansion spins, or holds a NUL, makes the whole conversion hang, or panic, wherever it stands |
| RestApi.BracedParamsAsIntended | src/rest_api_lib/src/lib.rs:229-236 | parameters that use only "${NAME}" convert to their intended expansions |
| RestApi.CRequest | src/rest_api_lib/src/lib.rs:227-254 | the request passed to the callback carries the app, its size and name, and the first 255 converted parameters, in order |
| RestApi.CallbackSeesAsWritten | src/rest_api_lib/src/lib.rs:227-243 | when every parameter converts, the callback sees the first 255, each as the loop as written expands it and free of NUL |
| RestApi.LoadStatus | src/rest_api_lib/src/lib.rs:279-306 | 400 exactly for -1, 500 exactly for -2 and below, 200 exactly for a non-negative result |
| RestApi.Position | src/rest_api_lib/src/lib.rs:346 | a position found holds the first app with the id; no earlier app, and none at all when none is found, has it |
| RestApi.RemoveAt | src/rest_api_lib/src/lib.rs:347 | the list without its element at the index, the others in order |
| RestApi.GetApp | src/rest_api_lib/src/lib.rs:127-140 | 200 exactly when some app has the id, and then a listed app with that id; otherwise 404 |
| RestApi.IntToString | src/rest_api_lib/src/lib.rs:136 | a non-negative id prints as digits whose decimal value is the id; a negative one as '-' followed by the digits of its magnitude |
| RestApi.IntToStringInjective | src/rest_api_lib/src/lib.rs:136 | distinct ids print differently, so the 404 text names the id asked for |
| RestApi.LoadApp | src/rest_api_lib/src/lib.rs:206-307 | load_app answers only 200, 400 or 500, or hangs or panics, and any outcome but 200 leaves the list unchanged |
| RestApi.UnloadApp | src/rest_api_lib/src/lib.rs:321-356 | unload_app always answers 204, 404 or 500, removes at most one app, and changes the list only with 204 |
| RestApi.LoadOnlyAppends | src/rest_api_lib/src/lib.rs:206-307 | the list changes exactly when the answer is 200, and then only by appending the new app, with a non-negative id and the request as sent |
| RestApi.LoadStatusMapping | src/rest_api_lib/src/lib.rs:214-306 | a load whose name and every parameter, wherever it stands, convert reaches the callback with the request built from the expansions as written, and answers the status its result maps to |
| RestApi.LoadFailsOnParam | src/rest_api_lib/src/lib.rs:229-236 | a parameter at any position, the 256th or later included, whose expansion spins makes the handler hang, and one whose expansion holds a NUL makes it panic, when those before it convert |
| RestApi.UnloadRemovesFirst | src/rest_api_lib/src/lib.rs:344-355 | for a non-negative callback result: 204 and the first app with the id removed when one exists, 404 and the list unchanged otherwise |
| RestApi.AppIds | src/rest_api_lib/src/lib.rs:130 | every listed app's id is among the ids |
| RestApi.IdsOf | src/rest_api_lib/src/lib.rs:130 | the id of an app at a position is among the ids |
| RestApi.NoIdOutside | src/rest_api_lib/src/lib.rs:130 | an id no position holds is not among the ids |
| RestApi.UnloadMinusOneKeepsList | src/rest_api_lib/src/lib.rs:334-335 | a callback result of -1 answers 204 and changes nothing |
| RestApi.GetAfterLoad | src/rest_api_lib/src/lib.rs:127-140 | an app loaded under a fresh id is what get_app returns for that id |
| RestApi.PositionAppended | src/rest_api_lib/src/lib.rs:302 | an app appended under a fresh id is found at the end of the list |
| RestApi.ServerState.constructor | src/rest_api_lib/src/lib.rs:50-54 | an empty list of apps with the given callbacks |
| RestApi.ServerState.Load | src/rest_api_lib/src/lib.rs:206-307 | expanding every parameter with the loop as written, the response and the new list are those of the load specification, hang and panic included |
| RestApi.ServerState.Unload | src/rest_api_lib/src/lib.rs:321-356 | the response and the new list are those of the unload specification |
| RestApi.ServerState.Get | src/rest_api_lib/src/lib.rs:127-140 | the response is that of the get specification |
| RestApi.ServerState.GetAll | src/rest_api_lib/src/lib.rs:150-153 | 200 with every loaded app, in load order |
| ControllerApps.Concat | src/controller/jrtc_int.c:64-86 | the result has the two lengths added, the first string as its prefix and the second as the rest |
| ControllerApps.ConcatExamples | jrtc_tests/unit_tests/strcat_test.c:13-62 | the unit test's cases: "Hello, " and "World!", each with an empty side, both empty, and control characters |
| ControllerApps.Initial | src/controller/jrtc_int.c:95-96 | the start-up table is well formed: 64 empty slots and the cursor at 0 |
| ControllerApps.HeldUpdate | src/controller/jrtc_int.c:216-239 | storing into a slot changes the held handles by exactly the old and the new occupant |
| ControllerApps.InitialAccounted | src/controller/jrtc_int.c:95-96 | the start-up table is accounted for |
| ControllerApps.FreeOffset | src/controller/jrtc_int.c:218-225 | the offset found, going round from the cursor, is a free slot with every slot passed over occupied; none is found only when every slot from there on is occupied |
| ControllerApps.Reserve | src/controller/jrtc_int.c:216-227 | the table stays well formed, and the slot returned is -1 or within the 64 slots |
| ControllerApps.Release | src/controller/jrtc_int.c:230-239 | the table stays well formed |
| ControllerApps.CircularOffset | src/controller/jrtc_int.c:219 | going round from the cursor, slot k is reached at offset (k - cursor) mod 64 |
| ControllerApps.OffsetOfCircular | src/controller/jrtc_int.c:219 | the slot reached at offset j has offset j |
| ControllerApps.ReserveIffFull | src/controller/jrtc_int.c:216-227 | reservation fails exactly when every slot is occupied, and then changes nothing |
| ControllerApps.ReserveTakesFirstFree | src/controller/jrtc_int.c:218-224 | otherwise the environment goes into a free slot every slot before which, going round from the cursor, is occupied, and the cursor moves to the slot after it |
| ControllerApps.ReleaseEffect | src/controller/jrtc_int.c:230-239 | an out-of-range id or an empty slot changes nothing; otherwise exactly that slot is emptied and its environment freed |
| ControllerApps.ReserveAccounted | src/controller/jrtc_int.c:216-227 | reserving a slot for a freshly created environment keeps the table accounted for |
| ControllerApps.ReleaseAccounted | src/controller/jrtc_int.c:230-239 | releasing keeps the table accounted for |
| ControllerApps.ReplaceAccounted | src/controller/jrtc_int.c:287-320 | filling in an environment that a slot already holds keeps the table accounted for |
| ControllerApps.Cancel | src/controller/jrtc_int.c:216-239 | equal multisets stay equal once a common part is removed |
| ControllerApps.Loaded | src/controller/jrtc_int.c:241-255 | true exactly when some occupied slot records the path |
| ControllerApps.Load | src/controller/jrtc_int.c:257-335 | corrected: the table stays well formed and the result is -1 or a slot |
| ControllerApps.Install | src/controller/jrtc_int.c:285-334 | the table stays well formed and the result is -1 or a slot |
| ControllerApps.LoadRejects | src/controller/jrtc_int.c:262-272 | a missing or empty image, or a path already loaded, is refused with -1 and no change |
| ControllerApps.LoadSucceeds | src/controller/jrtc_int.c:279-327 | a successful load stores into a slot that was free, changes no other slot, uses the DEADLINE policy exactly when a deadline is given, copies the times, parameters and path, and names the app "jrtc_app" when no name is given |
| ControllerApps.LoadSucceedsIff | src/controller/jrtc_int.c:257-335 | a load succeeds exactly when the image is given, its path is new, a slot is free and every allocation, library load and thread start succeeds |
| ControllerApps.LoadAccounted | src/controller/jrtc_int.c:257-335 | loading keeps the table accounted for, whatever the outcome |
| ControllerApps.AllocateAndInstallAccounted | src/controller/jrtc_int.c:274-334 | creating an environment, reserving a slot for it and installing it keeps the table accounted for |
| ControllerApps.FreshHandle | src/controller/jrtc_int.c:274 | creating an environment adds the next handle to those to account for |
| ControllerApps.NoSlotAccounted | src/controller/jrtc_int.c:279-283 | an environment freed as soon as it is created leaves the table accounted for |
| ControllerApps.InstallAccounted | src/controller/jrtc_int.c:285-334 | installing a reserved environment keeps the table accounted for |
| ControllerApps.SecondLoadRefused | src/controller/jrtc_int.c:268-272 | corrected: once a path is loaded, loading it again is refused and changes nothing |
| ControllerApps.LoadAsWrittenFreesTwice | src/controller/jrtc_int.c:329-334 | as written, a failed library load frees the environment twice, once in the release and once after it |
| ControllerApps.LoadAsWrittenLeaks | src/controller/jrtc_int.c:279-283 | as written, an environment created when every slot is occupied is neither held nor freed |
| ControllerApps.LoadAsWrittenAcceptsSamePathTwice | src/controller/jrtc_int.c:268-320 | as written, the path is never recorded, so the same path loads twice |
| ControllerApps.LoadAsWritten | src/controller/jrtc_int.c:257-335 | as written, the result is -1 or a slot; a refused request returns -1 and changes nothing; a slot returned holds an environment with no path recorded |
| ControllerApps.InstallAsWritten | src/controller/jrtc_int.c:285-334 | as written, a negative id gives -1 and no slot change; otherwise the result is -1 or the id, the id when the library is loaded and stored into that slot, and -1 with the environment freed last |
| ControllerApps.Unload | src/controller/jrtc_int.c:337-362 | corrected: the table stays well formed |
| ControllerApps.UnloadOutOfRange | src/controller/jrtc_int.c:340 | as written, unloading id 64 reads past the table; checked, ids 64 and -1 return -1 and change nothing |
| ControllerApps.UnloadAgreesInRange | src/controller/jrtc_int.c:337-362 | the checked unload agrees with the code as written for every id in the table |
| ControllerApps.UnloadEffect | src/controller/jrtc_int.c:337-362 | unloading returns 0 exactly for an occupied slot whose thread joins and library closes, and then empties it and frees its environment; otherwise nothing changes, and the table stays accounted for |
| ControllerApps.UnloadAsWritten | src/controller/jrtc_int.c:337-362 | as written, only ids within the 64 slots have an outcome; a 0 return empties an occupied slot and nothing else, and any other return leaves the table as it was |
| ControllerApps.LoadThenUnload | src/controller/jrtc_int.c:257-362 | loading and then unloading the returned slot frees the new environment and restores the slots |
| ControllerApps.Controller.constructor | src/controller/jrtc_int.c:95-96 | the global table starts as the start-up table |
| ControllerApps.Controller.ReserveAppId | src/controller/jrtc_int.c:216-227 | the slot returned and the new table are those of the reservation specification |
| ControllerApps.Controller.ReleaseAppId | src/controller/jrtc_int.c:230-239 | the new table is that of the release specification |
| ControllerApps.Controller.IsAppLoaded | src/controller/jrtc_int.c:241-255 | the result is whether some occupied slot records the path |
| ControllerApps.Controller.LoadApp | src/controller/jrtc_int.c:257-335 | the result and the new table are those of the corrected load specification |
| ControllerApps.Controller.UnloadApp | src/controller/jrtc_int.c:337-362 | the outcome and the new table are those of the checked unload specification |
| Sched.SetScheduler | src/controller/jrtc_sched.c:15-72 | -1 and no call for a NULL configuration; 0 and no call for the normal policy; FIFO passes the priority to pthread_setschedparam and returns its result; DEADLINE calls sched_setattr with the deadline policy and zero flags, nice and priority, and returns its result; any other policy gives -2 and no call |
| Sched.DeadlineTimesExact | src/controller/jrtc_sched.c:47-49 | below 2^64 / 1000 microseconds the DEADLINE times are the configured microseconds times 1000, and give them back |
| Sched.DeadlineTimesWrap | src/controller/jrtc_sched.c:47-49 | beyond that the 64-bit product wraps: 18446744073709552 microseconds give 384 nanoseconds |
| Sched.DeadlineAttr | src/controller/jrtc_sched.c:40-49 | the DEADLINE attributes have their size, the DEADLINE policy, no flags, nice 0 and priority 0, and each time is the configured microseconds times 1000 when that fits 64 bits |
| Sched.OnlyRealPoliciesCall | src/controller/jrtc_sched.c:24-64 | a system call is made exactly for the FIFO and DEADLINE policies, and without one the result is -2, -1 or 0 |
| StreamIdText.Bytes | tools/jrtc-ctl/jrtcbindings/router_stream_id_helpers.go:24-27 | an id's binary form is exactly 16 bytes |
| StreamIdText.FromBytesBytes | tools/jrtc-ctl/jrtcbindings/router_stream_id_helpers.go:34-39 | building an id from its own 16 bytes gives the id back |
| StreamIdText.BytesFromBytes | tools/jrtc-ctl/jrtcbindings/router_stream_id_helpers.go:34-39 | a 16-byte slice is copied into the id unchanged: its bytes read back as the slice |
| StreamIdText.HexDigit | tools/jrtc-ctl/jrtcbindings/router_stream_id_helpers.go:18-22 | each nibble is printed as a lower-case hex digit |
| StreamIdText.HexValue | tools/jrtc-ctl/jrtcbindings/router_stream_id_helpers.go:41-53 | a character has a nibble value exactly when it is a hex digit of either case, and the value is below 16 |
| StreamIdText.Hex | tools/jrtc-ctl/jrtcbindings/router_stream_id_helpers.go:18-22 | bytes print as two hex digits each |
| StreamIdText.UnHex | tools/jrtc-ctl/jrtcbindings/router_stream_id_helpers.go:41-53 | hex text that reads back at all gives half as many bytes as it has digits |
| StreamIdText.UnHexHex | tools/jrtc-ctl/jrtcbindings/router_stream_id_helpers.go:18-22 | hex text reads back as the bytes it was printed from |
| StreamIdText.Hyphenate | tools/jrtc-ctl/jrtcbindings/router_stream_id_helpers.go:18-22 | the canonical text is 36 characters long with hyphens at positions 8, 13, 18 and 23 |
| StreamIdText.UuidText | tools/jrtc-ctl/jrtcbindings/router_stream_id_helpers.go:18-22 | an id's text is 36 characters long |
| StreamIdText.ParseUuid | tools/jrtc-ctl/jrtcbindings/router_stream_id_helpers.go:41-53 | canonical text is only accepted when it has 36 characters and the four hyphens in place |
| StreamIdText.ParseUuidText | tools/jrtc-ctl/jrtcbindings/router_stream_id_helpers.go:18-22 | parsing an id's text gives the id back |
| StreamIdText.UuidTextInjective | tools/jrtc-ctl/jrtcbindings/router_stream_id_helpers.go:18-22 | distinct ids never print the same text |
| StreamIdText.WithoutHyphens | tools/jrtc-ctl/cmd/jbpf/load/load.go:202 | removing hyphens leaves text without any hyphen and no longer than before |
| StreamIdText.WithoutHyphensHex | tools/jrtc-ctl/cmd/jbpf/load/load.go:202 | hex text has no hyphen to remove |
| StreamIdText.WithoutHyphensHyphenate | tools/jrtc-ctl/cmd/jbpf/load/load.go:202 | removing the hyphens from hyphenated digits gives the digits back |
| StreamIdText.CompactText | tools/jrtc-ctl/cmd/jbpf/load/load.go:202 | the 32-digit id the load command sends is exactly the hex of the id's 16 bytes |
| CliConfig.Merge | tools/jrtc-ctl/cmd/clicommon/config.go:154-187 | merging with no configuration so far gives the other, a missing second leaves the first, and two configurations merge exactly when their names agree, every list joined left then right, with a jbpf section and the first name |
| CliConfig.Gather | tools/jrtc-ctl/cmd/clicommon/config.go:107-139 | the files give a configuration only when every one of them was decoded, and there is one exactly when at least one file was given |
| CliConfig.GatherErrSticks | tools/jrtc-ctl/cmd/clicommon/config.go:107-139 | once a file fails, the files after it change nothing: the outcome is that of the prefix up to the failure |
| CliConfig.GatherMerges | tools/jrtc-ctl/cmd/clicommon/config.go:101-139 | reading a non-empty list of files succeeds exactly when every file decodes and all share the first file's name; the merged configuration then has that name, every file's apps in file order, and no jbpf section only for a single file without one |
| CliConfig.ExpandEnvVars | tools/jrtc-ctl/cmd/clicommon/config.go:246-269 | expansion panics (dereferences the nil jbpf section) exactly when there is none; otherwise it keeps the decoders, devices, name and the number of apps and codelets |
| CliConfig.ExpandKeepsShape | tools/jrtc-ctl/cmd/clicommon/config.go:246-269 | expansion changes only text: every app keeps its name, port, parameter keys and module count, and every codelet its device |
| CliConfig.DefaultAppsErrSticks | tools/jrtc-ctl/cmd/clicommon/config.go:191-232 | the first app whose duration fails to parse ends the pass: later apps do not change the outcome |
| CliConfig.DefaultAppsFill | tools/jrtc-ctl/cmd/clicommon/config.go:191-232 | the defaults pass succeeds exactly when every app's does, and then yields each app's defaulted form in order |
| CliConfig.DefaultAppFills | tools/jrtc-ctl/cmd/clicommon/config.go:192-227 | an app's defaults are ioq size 1000 when absent, IP 127.0.0.1 unless a non-empty one is given, durations 0 when absent and the parsed ones otherwise; nothing else changes |
| CliConfig.SetDefaults | tools/jrtc-ctl/cmd/clicommon/config.go:191-243 | the loop over apps, decoders and devices yields the defaulted configuration, or the first parse error |
| CliConfig.DefaultAppOf | tools/jrtc-ctl/cmd/clicommon/config.go:192-227 | one app's defaults, computed field by field, are those stated for an app |
| CliConfig.DefaultDecoders | tools/jrtc-ctl/cmd/clicommon/config.go:229-234 | every decoder gets IP 127.0.0.1 unless it carries a non-empty one |
| CliConfig.DefaultDevices | tools/jrtc-ctl/cmd/clicommon/config.go:236-241 | every device gets IP 127.0.0.1 unless it carries a non-empty one |
| CliConfig.Validation | tools/jrtc-ctl/cmd/clicommon/config.go:272-301 | an error needs a jbpf section; a device reported missing is not among the defined ids; the unused ids reported are defined, unused by every codelet, and not empty |
| CliConfig.Validate | tools/jrtc-ctl/cmd/clicommon/config.go:272-301 | the loops report the first repeated device id, then the first codelet whose device is not defined, then the unused devices, exactly as the validation function does |
| CliConfig.IdsMembers | tools/jrtc-ctl/cmd/clicommon/config.go:275-280 | an id is among the seen devices exactly when some device carries it |
| CliConfig.UsedMembers | tools/jrtc-ctl/cmd/clicommon/config.go:282-283 | an id is among the used devices exactly when some codelet names it |
| CliConfig.FirstDuplicateNone | tools/jrtc-ctl/cmd/clicommon/config.go:276-281 | no device is reported as already defined exactly when the device ids are pairwise distinct and not seen before |
| CliConfig.FirstMissingNone | tools/jrtc-ctl/cmd/clicommon/config.go:282-287 | no device is reported as not found exactly when every codelet's device is defined |
| CliConfig.ValidIff | tools/jrtc-ctl/cmd/clicommon/config.go:272-301 | a configuration validates exactly when it has no jbpf section, or its device ids are distinct, every codelet's device is defined and every device is used by some codelet |
| CliConfig.AllDefinedIff | tools/jrtc-ctl/cmd/clicommon/config.go:282-287 | the not-found check passes exactly when every codelet names a defined device |
| CliConfig.AllUsedIff | tools/jrtc-ctl/cmd/clicommon/config.go:289-297 | no device is left unused exactly when every device is named by some codelet |
| CliConfig.DeviceMap | tools/jrtc-ctl/cmd/clicommon/config.go:83-90 | the map has at most one key per device, and the last device's address maps to its id |
| CliConfig.GetDeviceMap | tools/jrtc-ctl/cmd/clicommon/config.go:83-90 | the loop builds the map from "ip:port" to device id |
| CliConfig.DeviceMapLastWins | tools/jrtc-ctl/cmd/clicommon/config.go:83-90 | an address is in the map exactly when some device has it, and it maps to the id of the last device with that address |
| CliConfig.FromYamls | tools/jrtc-ctl/cmd/clicommon/config.go:101-151 | loading returns the outcome of reading, merging, expanding, defaulting and validating the files in that order |
| CliConfig.FromYamlsPanicsIff | tools/jrtc-ctl/cmd/clicommon/config.go:101-151 | loading panics exactly when there is a single file that decodes and has no jbpf section; with two or more files the merge always adds one |
| CliConfig.FromYamlsLoaded | tools/jrtc-ctl/cmd/clicommon/config.go:101-151 | a loaded configuration carries the common name and every file's apps in order with their defaults, its device ids are distinct and its codelets use exactly the defined devices |
| JbpfCodeletConfig.ExpandCodeletsErrSticks | tools/jrtc-ctl/cmd/clicommon/jbpf_config.go:127-167 | the first codelet whose files fail the existence check ends the pass: later codelets do not change the outcome |
| JbpfCodeletConfig.ExpandEnvVars | tools/jrtc-ctl/cmd/clicommon/jbpf_config.go:121-169 | the loop over codelets yields the codelets with their package paths expanded, or the first missing-file error |
| JbpfCodeletConfig.ExpandChannelsKeep | tools/jrtc-ctl/cmd/clicommon/jbpf_config.go:133-166 | expanding channels keeps each channel's destination, name, serialiser file path and serde shape; only protobuf package paths change |
| JbpfCodeletConfig.ExpandKeepsPaths | tools/jrtc-ctl/cmd/clicommon/jbpf_config.go:121-169 | expansion keeps every codelet's object path, name and linked maps and every serialiser file path as written, since the controller expands those itself |
| JbpfCodeletConfig.DefaultDestinations | tools/jrtc-ctl/cmd/clicommon/jbpf_config.go:173-183 | the loop over one codelet's channels gives each empty destination the default "DestinationNone" |
| JbpfCodeletConfig.SetDefaults | tools/jrtc-ctl/cmd/clicommon/jbpf_config.go:171-187 | the set keeps its id and every codelet gets its channels' default destinations |
| JbpfCodeletConfig.DefaultsFill | tools/jrtc-ctl/cmd/clicommon/jbpf_config.go:171-187 | after the defaults every in- and out-channel destination is non-empty, given destinations are untouched, and applying the defaults again changes nothing |
| JbpfCodeletConfig.SerdeErrorAsWritten | tools/jrtc-ctl/cmd/clicommon/jbpf_config.go:89-102 | as written, an error names a codelet one of whose in-channels forwards data without a serde |
| JbpfCodeletConfig.SerdeErrorAsWrittenIff | tools/jrtc-ctl/cmd/clicommon/jbpf_config.go:89-102 | the check as written accepts exactly the sets in which every forwarding in-channel has a serde |
| JbpfCodeletConfig.SerdeError | tools/jrtc-ctl/cmd/clicommon/jbpf_config.go:89-102 | corrected: an error names a codelet one of whose in- or out-channels forwards data without a serde |
| JbpfCodeletConfig.SerdeAsWrittenWeaker | tools/jrtc-ctl/cmd/clicommon/jbpf_config.go:89-102 | the check as written accepts every set the corrected check accepts |
| JbpfCodeletConfig.SerdeAsWrittenMissesOutChannels | tools/jrtc-ctl/cmd/clicommon/jbpf_config.go:89-102 | as written, both loops scan the in-channels, so an out-channel forwarding to UDP without a serde is accepted although the intended check rejects it |
| JbpfCodeletConfig.SerdeErrorIff | tools/jrtc-ctl/cmd/clicommon/jbpf_config.go:89-102 | the corrected check accepts exactly the sets in which every in- and out-channel that forwards data has a serde |
| JbpfCodeletConfig.CheckSerde | tools/jrtc-ctl/cmd/clicommon/jbpf_config.go:89-102 | the nested loops report the first codelet with a forwarding channel that has no serde, as the corrected check does |
| JbpfCodeletConfig.HasUnserialised | tools/jrtc-ctl/cmd/clicommon/jbpf_config.go:91-101 | a channel loop finds a problem exactly when some channel forwards to a destination other than none and has no serde |
| JbpfCodeletConfig.CheckLinkedMaps | tools/jrtc-ctl/cmd/clicommon/jbpf_config.go:104-116 | the loop with its queued-name set reports the first self-link or link to a codelet not yet queued, in list order |
| JbpfCodeletConfig.LinkErrorAt | tools/jrtc-ctl/cmd/clicommon/jbpf_config.go:104-116 | codelets without linked maps are never rejected by the link check |
| JbpfCodeletConfig.NamesBeforeMembers | tools/jrtc-ctl/cmd/clicommon/jbpf_config.go:105-115 | a name is queued before codelet i exactly when some earlier codelet carries it |
| JbpfCodeletConfig.LinkErrorInNone | tools/jrtc-ctl/cmd/clicommon/jbpf_config.go:107-114 | one codelet's links raise no error exactly when each names a different codelet already queued |
| JbpfCodeletConfig.LinkErrorAtNone | tools/jrtc-ctl/cmd/clicommon/jbpf_config.go:106-116 | the codelets from i on raise no error exactly when each of their links is good |
| JbpfCodeletConfig.LinksAcceptedIff | tools/jrtc-ctl/cmd/clicommon/jbpf_config.go:104-116 | the check accepts a list exactly when every linked map names a different codelet that appears strictly earlier in the list |
| JbpfCodeletConfig.FirstBadLinkReported | tools/jrtc-ctl/cmd/clicommon/jbpf_config.go:104-116 | the reported error is about the first bad link in list order: the self-link message when it names its own codelet, the not-yet-loaded message otherwise |
| JbpfCodeletConfig.ReachesCodelet | tools/jrtc-ctl/cmd/clicommon/jbpf_config.go:106-116 | when every codelet before i has good links, the check's outcome is that of the codelets from i on |
| JbpfCodeletConfig.ReachesLink | tools/jrtc-ctl/cmd/clicommon/jbpf_config.go:107-114 | when the links of codelet i before k are good, the outcome is that from link k on |
| JbpfCodeletConfig.LinkErrorInSkips | tools/jrtc-ctl/cmd/clicommon/jbpf_config.go:107-114 | good links between k0 and k are passed over without effect |
| JbpfCodeletConfig.AcceptedIsAcyclic | tools/jrtc-ctl/cmd/clicommon/jbpf_config.go:104-116 | with distinct names, an accepted list only links backwards, so no chain of linked maps leads from a codelet back to itself |
| JbpfCodeletConfig.OutOfOrderRejected | tools/jrtc-ctl/cmd/clicommon/jbpf_config.go:111-113 | a codelet linking to one listed after it is rejected as referenced before it is loaded, and the same pair in the other order is accepted |
| JbpfCodeletConfig.LoopRejected | tools/jrtc-ctl/cmd/clicommon/jbpf_config.go:104-116 | two codelets linking to each other are rejected, the first being reported |
| JbpfCodeletConfig.Checked | tools/jrtc-ctl/cmd/clicommon/jbpf_config.go:81-118 | an accepted set keeps its id and passes the serde check (as written or corrected) and the link check |
| JbpfCodeletConfig.JbpfConfigFromYaml | tools/jrtc-ctl/cmd/clicommon/jbpf_config.go:63-119 | corrected: loading returns the stat, read or decode error, then the expansion, serde and linked-map errors, in that order, or the checked set, with the serde check over in- and out-channels |
| JbpfCodeletConfig.FromYamlAccepted | tools/jrtc-ctl/cmd/clicommon/jbpf_config.go:63-119 | corrected: a set the corrected loader accepts has a destination on every channel, a serde on every forwarding channel and only backward links to other codelets |
| JbpfCodeletConfig.FromYamlAsWrittenAccepted | tools/jrtc-ctl/cmd/clicommon/jbpf_config.go:63-119 | a set the loader as written accepts has a destination on every channel, a serde on every forwarding in-channel and only backward links to other codelets |
| JbpfCodeletConfig.FromYamlAsWrittenAcceptsCorrected | tools/jrtc-ctl/cmd/clicommon/jbpf_config.go:63-119 | whatever the corrected loader accepts, the loader as written accepts with the same result |
| JbpfCodeletConfig.SerdeCheck | tools/jrtc-ctl/cmd/clicommon/jbpf_config.go:89-102 | the check as written reports an error only where the corrected one does, and the corrected choice is the corrected check |
| JbpfCodeletConfig.FromYamlResult | tools/jrtc-ctl/cmd/clicommon/jbpf_config.go:63-119 | an accepted file parsed, keeps its id and passes the chosen serde check and the link check; a directory gives the "expected ... to be a file, got directory" error |
| JbpfLoad.Parse | tools/jrtc-ctl/cmd/jbpf/load/load.go:46-52 | a device id is accepted exactly when it is below 128; a rejected one carries the "less or equal to 127" message |
| JbpfLoad.ParseGuardsDeviceField | tools/jrtc-ctl/cmd/jbpf/load/load.go:46-52 | the device id is accepted exactly when the 7-bit device field of a stream id keeps it, a rejected id gets the "must be less or equal to 127" error, and an accepted id reads back unchanged from any id generated for it |
| JbpfLoad.RejectedDeviceAliases | tools/jrtc-ctl/cmd/jbpf/load/load.go:26 | an id the check rejects would be generated as another device: 128 lands on device 0 |
| JbpfLoad.AfterLast | tools/jrtc-ctl/cmd/jbpf/load/load.go:146 | the base name is a suffix of the path containing no '/' |
| JbpfLoad.TrimTrailingSlashes | tools/jrtc-ctl/cmd/jbpf/load/load.go:146 | trailing slashes are removed before taking the base name |
| JbpfLoad.Base | tools/jrtc-ctl/cmd/jbpf/load/load.go:146 | a path's base name is never empty ("." for the empty path) |
| JbpfLoad.ProtoNameOfPackage | tools/jrtc-ctl/cmd/jbpf/load/load.go:146 | a package file "dir/name.pb" registers as "name", whatever the directory |
| JbpfLoad.ProtoNameKeepsOtherExtensions | tools/jrtc-ctl/cmd/jbpf/load/load.go:146 | only a ".pb" suffix is trimmed: "d/m.pbx" registers as "m.pbx" |
| JbpfLoad.ProtoName | tools/jrtc-ctl/cmd/jbpf/load/load.go:146 | a package name holds no '/' unless it is "/", and is no longer than a non-empty path |
| JbpfLoad.StreamPath | tools/jrtc-ctl/cmd/jbpf/load/load.go:27 | the stream path has the three parts' lengths plus the 15 characters of the format |
| JbpfLoad.StreamPathLayout | tools/jrtc-ctl/cmd/jbpf/load/load.go:27 | the path is the app name, "://jbpf_agent/", the set id, '/' and the codelet name, whose base name is the codelet name when that is non-empty and has no '/' |
| JbpfLoad.ChannelEntries | tools/jrtc-ctl/cmd/jbpf/load/load.go:140-141 | each codelet contributes one entry per output channel |
| JbpfLoad.Schemas | tools/jrtc-ctl/cmd/jbpf/load/load.go:137-181 | the decoder request map has at most one package per output channel |
| JbpfLoad.SchemasDecoder | tools/jrtc-ctl/cmd/jbpf/load/load.go:137-181 | the nested loops over codelets and output channels yield the schema map built entry by entry, or the first read or generation error |
| JbpfLoad.AddChannel | tools/jrtc-ctl/cmd/jbpf/load/load.go:141-176 | one output channel is skipped without a protobuf serde; otherwise its package's file is read once, and its message is mapped to the stream id generated for any destination and any device |
| JbpfLoad.SchemasSnoc | tools/jrtc-ctl/cmd/jbpf/load/load.go:140-178 | processing one more channel after an error keeps the error, and after success applies that channel's step |
| JbpfLoad.SchemasErrSticks | tools/jrtc-ctl/cmd/jbpf/load/load.go:149-151 | a read or generation error ends the loops: the result over all channels is the first failing prefix's |
| JbpfLoad.StepFails | tools/jrtc-ctl/cmd/jbpf/load/load.go:149-169 | the error of the channel k of codelet i is the outcome of the whole schema pass |
| JbpfLoad.StepEffect | tools/jrtc-ctl/cmd/jbpf/load/load.go:141-176 | a channel without a protobuf serde changes nothing; otherwise its package becomes a key, a new key holds the file's contents, an existing one keeps its contents, the message maps to the channel's stream id, and every other key is left alone |
| JbpfLoad.ReadOnlyWhenNew | tools/jrtc-ctl/cmd/jbpf/load/load.go:148-158 | a package already registered is not read again: the reader is not consulted |
| JbpfLoad.SchemasKeys | tools/jrtc-ctl/cmd/jbpf/load/load.go:137-181 | the schema map's keys are exactly the packages some output channel declares |
| JbpfLoad.StepKeepsContents | tools/jrtc-ctl/cmd/jbpf/load/load.go:148-158 | a step keeps the compiled contents of every package already registered |
| JbpfLoad.StepReadsNew | tools/jrtc-ctl/cmd/jbpf/load/load.go:148-158 | a step that registers a new package holds the contents of its file |
| JbpfLoad.SchemasFirstProto | tools/jrtc-ctl/cmd/jbpf/load/load.go:148-158 | each package keeps the contents of the file named by the first channel that declares it |
| JbpfLoad.SchemasLastStream | tools/jrtc-ctl/cmd/jbpf/load/load.go:160-176 | each message maps to the stream id of the last channel that names it in its package |
| JbpfLoad.StepKeepsStream | tools/jrtc-ctl/cmd/jbpf/load/load.go:160-176 | a channel for another package or message leaves a registered message's stream id as it was |
| JbpfLoad.SchemasReadFirstOnly | tools/jrtc-ctl/cmd/jbpf/load/load.go:148-158 | only the first file of each package is read: two readers that agree on those files give the same result |
| JbpfLoad.IoMaps | tools/jrtc-ctl/cmd/jbpf/load/load.go:187-241 | the loop over one codelet's channels yields their maps in order, or the first error |
| JbpfLoad.ChannelMap | tools/jrtc-ctl/cmd/jbpf/load/load.go:188-240 | one channel's map has its name, the hyphen-free id generated for its destination (none for inputs, the parsed one for outputs), and its serde file only when one is named |
| JbpfLoad.CollectErrSticks | tools/jrtc-ctl/cmd/jbpf/load/load.go:196-198 | the first failing element ends the loop: the result is that of the prefix up to it |
| JbpfLoad.LinkedMapsOf | tools/jrtc-ctl/cmd/jbpf/load/load.go:243-250 | the linked maps are copied field by field, unchanged and in order |
| JbpfLoad.CodeletSet | tools/jrtc-ctl/cmd/jbpf/load/load.go:184-269 | the loop over codelets yields the codelet-set request, or the first destination or generation error |
| JbpfLoad.CollectPointwise | tools/jrtc-ctl/cmd/jbpf/load/load.go:185-263 | the loops succeed exactly when every element's step does, and then yield each element's result in order |
| JbpfLoad.Request | tools/jrtc-ctl/cmd/jbpf/load/load.go:252-267 | the request is built exactly when every codelet's descriptor is, and then carries the codelet set's id |
| JbpfLoad.RequestDescribesEachCodelet | tools/jrtc-ctl/cmd/jbpf/load/load.go:252-267 | a request carries the set's id and one descriptor per codelet, in order, with the codelet's own name, path, hook, linked maps, priority and runtime threshold, and one map per channel |
| JbpfLoad.InputChannelMap | tools/jrtc-ctl/cmd/jbpf/load/load.go:188-210 | input channel j of codelet i is sent under its own name with the id generated for destination none, the device, the codelet's stream path and the channel name, and its serde file only when it names one |
| JbpfLoad.OutputChannelMap | tools/jrtc-ctl/cmd/jbpf/load/load.go:214-240 | output channel j of codelet i names a known destination and is sent with the id generated for that destination |
| JbpfLoad.UnknownDestinationFails | tools/jrtc-ctl/cmd/jbpf/load/load.go:216-219 | an unknown forward destination fails the whole request |
| LogUploader.Wrap | tools/jrtc-ctl/services/loganalytics/uploader.go:119-120 | a batch as sent is the buffer between "[" and "]", two bytes longer |
| LogUploader.Wire | tools/jrtc-ctl/services/loganalytics/uploader.go:119-129 | one sent batch per flushed group of messages |
| LogUploader.WireAppend | tools/jrtc-ctl/services/loganalytics/uploader.go:119-129 | the batches sent for two runs of flushes are those of the first followed by those of the second |
| LogUploader.JoinSnoc | tools/jrtc-ctl/services/loganalytics/uploader.go:94-98 | writing a message to a non-empty buffer adds a comma and the message |
| LogUploader.JoinLength | tools/jrtc-ctl/services/loganalytics/uploader.go:85-86 | the buffer holds the messages' bytes and one comma between each two |
| LogUploader.JoinStartsWithFirst | tools/jrtc-ctl/services/loganalytics/uploader.go:94-98 | the buffer starts with its first message, so a buffer whose first message is non-empty is non-empty |
| LogUploader.Step | tools/jrtc-ctl/services/loganalytics/uploader.go:77-105 | one upload flushes nothing or exactly the whole buffer, and only when that buffer is non-empty and the new message would overflow it; a non-empty message always ends up last in the buffer |
| LogUploader.StepKeepsOrder | tools/jrtc-ctl/services/loganalytics/uploader.go:77-105 | every message is kept whole and in order: what an upload flushes followed by what it keeps is what was buffered followed by the new message, unless that is an empty message written to an empty buffer |
| LogUploader.StepKeepsBound | tools/jrtc-ctl/services/loganalytics/uploader.go:85-92 | every batch sent and the buffer kept fit the batch size once bracketed, unless they hold a single message |
| LogUploader.OversizedMessageSentAlone | tools/jrtc-ctl/services/loganalytics/uploader.go:85-92 | a message too large for any batch is buffered alone after the flush, and so is later sent alone, over the limit |
| LogUploader.EmptyMessageAddsComma | tools/jrtc-ctl/services/loganalytics/uploader.go:94-98 | an empty message after another adds a bare comma, so the batch is "[a,]" |
| LogUploader.Uploader.constructor | tools/jrtc-ctl/services/loganalytics/uploader.go:41-47 | a new uploader has an empty buffer, a running timer and nothing sent |
| LogUploader.Uploader.Flush | tools/jrtc-ctl/services/loganalytics/uploader.go:107-137 | an empty buffer sends nothing; otherwise the bracketed buffer is sent and the buffer emptied, keeping the buffer and batch invariants |
| LogUploader.Uploader.Upload | tools/jrtc-ctl/services/loganalytics/uploader.go:77-105 | an upload flushes first when the bracketed buffer plus the message and a comma would exceed the batch size, then appends the message after a comma unless the buffer is empty; a closed uploader refuses with "uploader is closed" |
| LogUploader.Uploader.Close | tools/jrtc-ctl/services/loganalytics/uploader.go:66-74 | closing flushes what is buffered and leaves the buffer empty |
| LogUploader.NewUploader | tools/jrtc-ctl/services/loganalytics/uploader.go:31-63 | a disabled uploader is nil without error, a client that cannot be created returns its error, and otherwise a fresh empty uploader is returned |
| JrtcAppWrapper.CreateStreamsSticks | src/wrapper_apis/c/jrtc_app.cpp:77-129 | the first loop stops at its first failure: once a prefix of the streams has failed, the longer list fails the same way |
| JrtcAppWrapper.ChannelsSnoc | src/wrapper_apis/c/jrtc_app.cpp:167-174 | pushing an item adds its channel, if it has one, to the channels CleanUp destroys |
| JrtcAppWrapper.CreateStreamsShape | src/wrapper_apis/c/jrtc_app.cpp:77-129 | the first loop returns 0 or -1; on 0 there is one item per stream, registered exactly when its stream receives; on -1 the items are for a prefix of the streams and only receiving ones are registered |
| JrtcAppWrapper.CreateStreamsKeepsChannels | src/wrapper_apis/c/jrtc_app.cpp:92-118 | with the correction, every channel the first loop creates is held by an item, so CleanUp destroys it |
| JrtcAppWrapper.StepKeepsChannels | src/wrapper_apis/c/jrtc_app.cpp:78-118 | with the correction, one pass of the first loop keeps every created channel held by an item |
| JrtcAppWrapper.CorrectionKeepsOutcome | src/wrapper_apis/c/jrtc_app.cpp:108-118 | the correction changes only the items left after a failed registration: the result and the channels created are the same, and so are the items whenever the loop succeeds |
| JrtcAppWrapper.InitAsWrittenLeaksChannel | src/wrapper_apis/c/jrtc_app.cpp:108-118 | as written, a receiving stream whose channel is created but whose registration fails is not pushed, so its channel is never destroyed |
| JrtcAppWrapper.FirstMatchIsFirst | src/wrapper_apis/c/jrtc_app.cpp:198-207 | the search finds the smallest receiving stream whose id the entry matches, and finds none exactly when no receiving stream matches |
| JrtcAppWrapper.HandledAreFirstMatches | src/wrapper_apis/c/jrtc_app.cpp:195-214 | every handler call is for an entry of the batch with the index of the first stream it matches, and every matched entry gets a call |
| JrtcAppWrapper.SizeT | src/wrapper_apis/c/jrtc_app.cpp:231 | the cast of an int index to a 64-bit size_t is its value modulo 2^64 |
| JrtcAppWrapper.JrtcApp.constructor | src/wrapper_apis/c/jrtc_app.cpp:62-66 | a new app holds its stream configuration, no items and no channels |
| JrtcAppWrapper.InitAsWritten | src/wrapper_apis/c/jrtc_app.cpp:71-159 | Init as written returns 0 or -1, or waits forever only when there is no positive timeout, and returns 0 only with one item per stream and every transmit stream's input channel found |
| JrtcAppWrapper.InitWaitsIff | src/wrapper_apis/c/jrtc_app.cpp:131-155 | Init waits forever exactly when there is no positive timeout, the first loop succeeds and some transmit stream without its own channel never finds its input channel; with a positive timeout it always returns; the correction of the first loop does not change the result |
| JrtcAppWrapper.JrtcApp.Init | src/wrapper_apis/c/jrtc_app.cpp:71-159 | Init returns -1 at the first failed generation, channel creation or registration, or (with a positive timeout) at a passed timeout or a transmit input channel that does not appear in time, waits forever for that channel when there is no positive timeout, else returns 0; it leaves the items and channels of the corrected first loop |
| JrtcAppWrapper.JrtcApp.CreateOne | src/wrapper_apis/c/jrtc_app.cpp:78-118 | one pass of the first loop pushes the item and creates the channel that the loop's step describes |
| JrtcAppWrapper.JrtcApp.CleanUp | src/wrapper_apis/c/jrtc_app.cpp:164-175 | CleanUp deregisters exactly the registered ids and destroys exactly the non-null channels, each in item order |
| JrtcAppWrapper.JrtcApp.FindStream | src/wrapper_apis/c/jrtc_app.cpp:198-207 | the inner search finds a stream exactly when some receiving stream matches, and then returns the first one |
| JrtcAppWrapper.JrtcApp.Dispatch | src/wrapper_apis/c/jrtc_app.cpp:195-214 | one batch makes a handler call for each matched entry with its first matching stream, and releases every entry's buffer, matched or not |
| JrtcAppWrapper.LookupInRange | src/wrapper_apis/c/jrtc_app.cpp:228-241 | get_stream and get_chan_ctx answer exactly for the indices of existing items; a negative index wraps out of range and gets NULL |
| JrtcAppWrapper.WrappersRejectMissing | src/wrapper_apis/c/jrtc_app.cpp:270-311 | the C wrappers return NULL or -1 for an index without an item or a channel, and otherwise pass the item's channel or id to the router call |
| JrtcAppWrapper.JrtcApp.GetStream | src/wrapper_apis/c/jrtc_app.cpp:228-233 | an index within the items gives that item's stream id; any other index gives NULL, a negative one because it wraps out of range |
| JrtcAppWrapper.JrtcApp.GetChanCtx | src/wrapper_apis/c/jrtc_app.cpp:237-241 | an index within the items gives that item's channel (NULL for none); any other index gives NULL |
| JrtcAppWrapper.JrtcApp.ReserveBuf | src/wrapper_apis/c/jrtc_app.cpp:270-278 | with a channel at the index the router's reservation is returned; without one, NULL |
| JrtcAppWrapper.JrtcApp.SendOutput | src/wrapper_apis/c/jrtc_app.cpp:281-289 | with a channel at the index the router's send result is returned; without one, -1 |
| JrtcAppWrapper.JrtcApp.SendInputMsg | src/wrapper_apis/c/jrtc_app.cpp:303-311 | an index of an item (below 2^31, as the int parameter of get_stream keeps it) sends to its stream id; any other index gives -1 |
| CString.LastIndexOf | src/logger/jrtc_logging.h:48 | strrchr finds nothing exactly when the character is absent, and otherwise the position of its last occurrence |
| CString.FirstIndexOf | src/logger/jrtc_logging.h:58 | strchr finds nothing exactly when the character is absent, and otherwise the position of its first occurrence |
| CString.FindFrom | src/logger/jrtc_logging.h:55 | strstr finds nothing exactly when the pattern occurs nowhere, and otherwise its first occurrence |
| CString.FileName | src/logger/jrtc_logging.h:45-50 | the file name is the suffix of the path after its last '/', the whole path when it has none, and contains no '/' |
| PythonLoader.GetFolder | src/pythonapp_loader/jrtc_pythonapp_loader.c:42-67 | the folder is "./", "/" or a non-empty proper prefix of the path that stops at a '/'; it is "./" for NULL and for a path without '/' |
| PythonLoader.GetFileNameWithoutPy | src/pythonapp_loader/jrtc_pythonapp_loader.c:69-93 | there is a module name exactly when there is a path, and it holds no '/' and is no longer than the path |
| PythonLoader.WithoutPy | src/pythonapp_loader/jrtc_pythonapp_loader.c:79-81 | the module name is the file name or the file name less a final ".py" |
| PythonLoader.ModuleNameStripsOnlyPy | src/pythonapp_loader/jrtc_pythonapp_loader.c:69-92 | the module name is the file name with a trailing ".py" removed, and the file name unchanged otherwise |
| PythonLoader.FolderIsBeforeLastSlash | src/pythonapp_loader/jrtc_pythonapp_loader.c:54-59 | for a path with a '/' past its first character, the folder is everything before the last '/', and the file name everything after it |
| PythonLoader.FolderAndNameRebuildPath | src/pythonapp_loader/jrtc_pythonapp_loader.c:42-92 | a ".py" path inside a folder is the folder, a '/', the module name and ".py" |
| PythonLoader.RootAndNullExamples | src/pythonapp_loader/jrtc_pythonapp_loader.c:45-57 | a file at the root has folder "/"; NULL gives the folder "./" and no module name |
| PythonLoader.BareNameExample | src/pythonapp_loader/jrtc_pythonapp_loader.c:61-64 | a bare file name has folder "./" |
| PythonLoader.OtherExtensionsKept | src/pythonapp_loader/jrtc_pythonapp_loader.c:79-81 | extensions other than exactly ".py" are kept: "app.pyc" and "app.py.bak" are module names as they stand |
| Logging.LevelsOrdered | src/logger/jrtc_logging.h:35-40 | the levels are ordered DEBUG, INFO, WARN, ERROR, CRITICAL, each value distinct |
| Logging.Truncate | src/logger/jrtc_logging.h:81-97 | snprintf into a buffer keeps a prefix of the text: all of it when it fits, and exactly one character less than the buffer size when it does not |
| Logging.ToUpper | src/logger/jrtc_logging.h:68-70 | toupper leaves no lower-case letter and changes nothing else |
| Logging.Upper | src/logger/jrtc_logging.h:68-70 | the domain is upper-cased character by character |
| Logging.GetDomain | src/logger/jrtc_logging.h:52-75 | there is no domain exactly when the path has no "src/" or no '/' after its first "src/"; otherwise the domain is the upper-cased segment between them |
| Logging.LogPrefix | src/logger/jrtc_logging.h:78-102 | the prefix is the formatted text when it has at most 255 characters, and its first 255 characters otherwise |
| Logging.PrefixStartsWithJrtc | src/logger/jrtc_logging.h:78-102 | every prefix starts "[JRTC]"; without the verbose flag it is "[JRTC]" alone, or "[JRTC][DOMAIN]" when there is a domain that fits |
| Logging.DomainOfSrcPath | src/logger/jrtc_logging.h:52-75 | a path "src/dir/rest" has domain dir, upper-cased, whatever follows |
| Logging.NoDomainOutsideSrc | src/logger/jrtc_logging.h:55-56 | a path without "src/" has no domain |
| Logging.NoDomainWithoutDir | src/logger/jrtc_logging.h:58-59 | a path with no '/' after its "src/" has no domain |
| Logging.Output | src/logger/jrtc_logging.c:14-15 | the text written is the domain, a space, the level tag and the message: all of it when it fits in 8191 characters, and its first 8191 otherwise |
| Logging.FilterAndStream | src/logger/jrtc_logging.c:17-18 | only DEBUG messages go to standard output; raising the level never lets through a message it stopped before; at the default level DEBUG everything is written, and CRITICAL always is |
| Logging.Where | src/logger/jrtc_logging.c:18 | a message goes to standard output exactly when it is DEBUG, and to standard error otherwise |
| Logging.Emits | src/logger/jrtc_logging.c:17 | a message at the level itself, any message at level DEBUG and every CRITICAL message are written; a DEBUG message only at level DEBUG |
| Logging.Logger.constructor | src/logger/jrtc_logging.c:57-59 | the globals start at level DEBUG with the two default logging functions |
| Logging.Logger.Log | src/logger/jrtc_logging.c:11-37 | a message at or above the level is appended to its stream, standard error from INFO up and standard output for DEBUG, and nothing else changes |
| Logging.Logger.SetLevel | src/logger/jrtc_logging.c:39-43 | only the level changes |
| Logging.Logger.SetLoggingFunction | src/logger/jrtc_logging.c:45-49 | only the logging function changes |
| Logging.Logger.SetVaLoggingFunction | src/logger/jrtc_logging.c:51-55 | only the va_list logging function changes |
| DecoderType.DefaultPort | tools/jrtc-ctl/genericdecoder/decoderType.go:48-51 | a default port is a 16-bit value |
| DecoderType.FromString | tools/jrtc-ctl/genericdecoder/decoderType.go:37-60 | an accepted name is the name of one of the two decoder types; a rejected one gives the nil method and the "unrecognized decoder type" error |
| DecoderType.FromStringInvertsName | tools/jrtc-ctl/genericdecoder/decoderType.go:37-60 | parsing a known type's name gives that type without error; a parse without error gives a known type whose name is the input; any other input, "unknown" included, gives nilMethod and an error |
| DecoderType.Name | tools/jrtc-ctl/genericdecoder/decoderType.go:37-46 | a name is never empty, and it is "unknown" exactly for a value that is not one of the two decoder types |
| DecoderType.DefaultPorts | tools/jrtc-ctl/genericdecoder/decoderType.go:20-27 | the default ports are 20789 for gRPC and 20787 for HTTP, and 0 for every byte without a map entry; the default type listens on the control port |
| HashInput.Input | tools/jrtc-ctl/common/hash.go:18-22 | the hashed text has at least one character per part, and ends with the last part after at least one index digit |
| HashInput.BuildInput | tools/jrtc-ctl/common/hash.go:18-22 | the loop builds the text of every part after its decimal index, in order |
| HashInput.GenerateHashFromStrings | tools/jrtc-ctl/common/hash.go:13-28 | no parts is the "stream ID components cannot be nil" error; otherwise the result is the first 16 bytes of the SHA-1 digest of the built text |
| HashInput.InputLayout | tools/jrtc-ctl/common/hash.go:18-22 | appending a part appends its index and the part; the text starts with "0" and the first part |
| HashInput.InputStartsWithFirst | tools/jrtc-ctl/common/hash.go:18-22 | a non-empty list's text starts with "0" and its first part |
| HashInput.SplitAtOneCollides | tools/jrtc-ctl/common/hash.go:18-22 | the encoding is ambiguous: one part holding "1" between two texts hashes like those texts as two parts, whatever the hash |
| HashInput.SplitAtOneExample | tools/jrtc-ctl/common/hash.go:18-22 | the parts ["a1b"] and ["a", "b"] both hash the text "0a1b" |
| LoadRequest.ToInt32 | tools/jrtc-ctl/services/jrt-controller/request.go:63-66 | Go's int32 conversion gives a 32-bit value congruent to its argument modulo 2^32, and an in-range value unchanged |
| LoadRequest.FromBytes | tools/jrtc-ctl/services/jrt-controller/request.go:50-71 | the request carries the code, with the path as both file name and app path, and all three durations as 32-bit values |
| LoadRequest.RequestFields | tools/jrtc-ctl/services/jrt-controller/request.go:50-71 | the request keeps the code, path, name, queue size, type and parameters as given, and each duration as its microsecond count wrapped to an int32: exact while that count fits |
| LoadRequest.MicrosecondsTruncate | tools/jrtc-ctl/services/jrt-controller/request.go:63-66 | Duration.Microseconds truncates toward zero: -1500 ns is -1 µs, not -2 |
| LoadRequest.Microseconds | tools/jrtc-ctl/services/jrt-controller/request.go:63-66 | whole microseconds truncated toward zero: within 1000 ns below a non-negative duration, and within 1000 ns above a negative one |
| LoadRequest.LongDurationWraps | tools/jrtc-ctl/services/jrt-controller/request.go:63 | a deadline of 2^31 µs (about 36 minutes) wraps to the most negative int32 |
| LoadRequest.FromPath | tools/jrtc-ctl/services/jrt-controller/request.go:15-47 | an error comes only from a stat error, a directory or a read error; a request carries the file's contents and its path |
| LoadRequest.FromPathIsFromBytesOfContents | tools/jrtc-ctl/services/jrt-controller/request.go:15-47 | loading from a path fails exactly on a stat error, a directory or a read error, each with its own message, and otherwise builds the same request as the bytes variant on the file's contents |
| DecimalText.Digit | tools/jrtc-ctl/common/hash.go:20 | each digit value prints as its decimal character |
| DecimalText.Decimal | tools/jrtc-ctl/common/hash.go:20 | a number prints as at least one decimal digit, with no leading zero |
| DecimalText.DecimalRoundTrip | tools/jrtc-ctl/common/hash.go:20 | the text reads back as the number |
| DecimalText.DecimalInjective | tools/jrtc-ctl/common/hash.go:20 | distinct numbers print differently, so each part's index is unambiguous as text |

## Left out

- Networking, process and file I/O are not modelled. This covers the UDP, HTTP and gRPC servers and clients, the Redis client, file globbing, the jbpf agent and controller clients, and the Log Analytics client. What the model needs from them is a parameter: results of `os.Stat`, `os.ReadFile`, `os.ExpandEnv`, `time.ParseDuration`, YAML decoding, Redis faults and socket reads.
- Concurrency is not modelled. This covers ck_epoch, spinlocks, ck_ring/ck_ht internals, the RWMutex of the store, errgroups, signal handlers and semaphores. Every table and store is single-threaded, so the write under a read lock in the store's `Get` is not captured.
- MurmurHash64A, SHA-1, HMAC-SHA256, protobuf descriptor and message decoding, protojson, the libyaml tokenizer and the uuid library's parser are parameters or abstract values. They are not part of this model.
- Dynamic library loading, memfd, thread creation and joining in the controller are the results they return (`Host`, `UnloadHost`). An allocation failure is a boolean parameter only for `Host.callocOk` of the controller's `load_app`, `RouterBitmap.Create`, `StreamIdGen.BloomInit`, `StreamIdGen.GetHash`, `StreamIdGen.GenerateStreamId`, `GoStreamId.GenerateStreamID`, `Router.RouterCtx.RegisterApp` and `Router.RouterCtx.RegisterStreamIdReq`.
- JrtcConfig.ExpandEnvVars: the NULL that `expand_env_vars` returns when `malloc` or `regcomp` fails is not modelled; the result is `None` only for a NULL input.
- Logging.GetDomain: the NULL that `get_domain` returns when `malloc` fails is not modelled; the result is `None` only when the path has no domain.
- PythonLoader.GetFolder, PythonLoader.GetFileNameWithoutPy: the NULL these return when `strdup` or `malloc` fails is not modelled; `GetFileNameWithoutPy` is `None` only for a NULL path.
- The Python interpreter embedding is not modelled; only the folder and module-name helpers are.
- Sleeps, inactivity timeouts, `last_received_time` and chrono arithmetic in the app wrapper are not modelled. The router calls are parameters. Whether `initialization_timeout_secs` is positive is `Router.hasTimeout`; whether the timeout has passed, and whether a polled input channel appears in time, are parameters.
- The bitfield-cast matchers of jrtc_router_stream_id.h are not modelled: they depend on a compiler-defined bitfield layout.
- The legacy YAML parser in jrtc_yaml.c, the Cobra/pflag option files, subcommand wiring, sample apps, codelets and the Python/ctypes wrappers are not modelled. Their only logic, first-match dispatch, is modelled for the C wrapper.
- GoStreamId.Format: modelled as a function from the id to the cleared id. The in-place update of the receiver's bytes is not modelled.
- JrtcConfig.Expand: the substitution loop is bounded by a `fuel` parameter. A self-referencing variable, which never terminates in C, is the `Diverged` result. The fixed-size `var_name` buffer and its overflow are not modelled.
- RestApi.ExpandAsWritten: a pass that cannot move the cursor forward, where the Rust loop spins forever, is the `Loops` result.
- RestApi.LoadApp: a handler that never answers, because a parameter's expansion spins, is the `Hangs` response; what the client then sees (a timeout) is not modelled.
- RestApi.Expand, RestApi.ExpandAsWritten, RestApi.ExpandEnvVars, RestApi.FirstNonAlphanumeric: only ASCII letters and digits count as name characters. Rust's `is_alphanumeric` also accepts other Unicode letters and digits, and Rust's cursor counts bytes where the model counts characters.
- RestApi.ExpandAsWritten: a simple name whose last character is a non-ASCII letter (as in "$Aé/") is not modelled as Rust runs it. Rust's byte offset at lib.rs:184 then falls inside that character, and the next slice panics. The model ends the name before that letter; for "$é/" its pass does not advance and gives `Loops`.
- StreamIdText.ParseUuid: reads only the canonical 36-character form. The uuid library also accepts `urn:uuid:`, braced and 32-digit forms.
- CliConfig.Validate: the unused-device error lists ids in Go's map order, which is not modelled. Go's `%q` quoting in error texts is written as plain double quotes.
- CliConfig: IP addresses are strings. The `[]string` branch of the app-parameter expansion is not modelled: decoded YAML lists are `[]interface{}`, so it never runs, and such values are `Other`.
- JbpfLoad: the decoder and agent client calls and the errgroup that runs them are left to the caller.
- JbpfCodeletConfig.JbpfConfigFromYaml: the method runs the corrected serde check, so it rejects an out-channel that forwards data without a serde, which the code as written accepts; `FromYamlResult` with `asWritten` set is the loader as written.
- JbpfCodeletConfig.FromYamlAccepted: the serde guarantee for out-channels holds of the corrected loader only; `FromYamlAsWrittenAccepted` states what the loader as written guarantees.
- LogUploader.Uploader: the flush timer, the lock, the sending goroutines and send errors are not modelled. The "uploader is closed" branch is modelled, but `Close` never clears the timer, so it is unreachable.
- Logging.Logger: `printf` argument formatting is not modelled; the text written is the format text. The static prefix buffer and its aliasing between calls are not modelled. The environment lookup of `JRTC_VERBOSE_LOGGING` is the `verbose` parameter.
- JrtcConfig.Atoi: reads the digits as an unbounded integer. Values out of `int` range, undefined in C, are not modelled.
- ControllerApps: `app_exit` and `load_default_north_io_app` are not modelled.
- DecoderType: the list of valid names built by `init` for error messages is not modelled.
- HashInput.GenerateHashFromStrings: SHA-1 is a parameter, any function returning 20 bytes; the result is its first 16.
- DecoderRun: run.go:85 passes the queue length 1000 where server.go:69 takes the output channel. The model follows server.go: the decoder's output queue is a parameter.

## Findings

| source | as written | input that shows it | evidently intended | confidence | as-written member | corrected member |
|---|---|---|---|---|---|---|
| src/stream_id/jrtc_router_stream_id.h:178-186 | the path and name getters widen `char` bytes of the id; where `char` is signed (x86-64), a byte of 0x80 or more sign-extends over the other bits | byte 4 = 0x97 (path); byte 15 = 0x80 (name): the result is not below 2^54 and differs from the field | each getter returns the 54-bit field, so that getting after setting gives back the value set | not executed | StreamIdCodec.StreamPathSignedCharDiffers, StreamIdCodec.StreamNameSignedCharDiffers | StreamIdCodec.GetSetStreamPath, StreamIdCodec.GetSetStreamName |
| src/router/jrtc_router.c:214-241 | the app iterator is set up once, before the loop over the batch, so only the first buffer reaches the recipients; all buffers are released | a batch of two buffers for one subscribed app with room for both | every buffer of the batch reaches every recipient, in order | not executed | Router.ForwardDropsLaterBuffers, Router.RouterCtx.ForwardMsgs | Router.RouterCtx.ForwardMsgsIntended |
| tools/jrtc-ctl/cmd/decoder/run/run.go:115-140 | both closed-queue branches clear `activeServices[0]`, so the UDP queue closing never counts | the decoder queue closes, then the UDP queue closes: the loop keeps running | the loop returns once both queues are closed | not executed | DecoderRun.BothClosedKeepsRunning, DecoderRun.ConsumeAsWritten | DecoderRun.Consume, DecoderRun.ConsumeExits |
| src/rest_api_lib/src/lib.rs:184 | after a simple `$NAME` the cursor is set one character before the end of the name, so the name's last character is emitted again | `$AB/` with `AB` set to `v` gives `vB/` | `v/` | not executed | RestApi.SimpleNameReemitsLastCharacter | RestApi.ExpandSimpleAt |
| src/rest_api_lib/src/lib.rs:179-184 | a `$` directly followed by a non-alphanumeric character that is not `{` leaves the cursor where it was, so the loop never ends | `$$` | `$$` is kept as it is | not executed | RestApi.DoubleDollarLoops | RestApi.DoubleDollarLoops, RestApi.ExpandSimpleAt |
| tools/jrtc-ctl/cmd/clicommon/jbpf_config.go:89-102 | the loop meant for out-channels iterates over the in-channels again | an out-channel forwarding to DestinationUDP with no serde is accepted | out-channels that forward data need a serde too | not executed | JbpfCodeletConfig.SerdeAsWrittenMissesOutChannels | JbpfCodeletConfig.SerdeErrorIff |
| src/controller/jrtc_int.c:329-334 | when loading the library fails, the environment is freed by the release and then freed again directly | a first load on an empty table whose library load fails | the environment is freed once | not executed | ControllerApps.LoadAsWrittenFreesTwice | ControllerApps.LoadAccounted |
| src/controller/jrtc_int.c:279-283 | when all 64 slots are taken, the environment just allocated is neither stored nor freed | a load into a full table | the environment is freed before returning -1 | not executed | ControllerApps.LoadAsWrittenLeaks | ControllerApps.LoadAccounted |
| src/controller/jrtc_int.c:268-320 | the loaded-path check compares against `app_path`, which no load ever records | loading "app.so" twice on an empty table succeeds twice | the second load of the same path is refused | not executed | ControllerApps.LoadAsWrittenAcceptsSamePathTwice | ControllerApps.SecondLoadRefused |
| src/controller/jrtc_int.c:340 | `unload_app` indexes the table with `app_id` unchecked | app id 64 reads past the 64-entry table | ids outside 0..63 return -1 and change nothing | not executed | ControllerApps.UnloadOutOfRange | ControllerApps.UnloadOutOfRange, ControllerApps.UnloadAgreesInRange |
| src/wrapper_apis/c/jrtc_app.cpp:108-118 | a channel created for a stream whose registration then fails is not kept in the stream items, so `CleanUp` never destroys it | one receiving stream with a channel, whose registration fails | every created channel is destroyed by `CleanUp` | not executed | JrtcAppWrapper.InitAsWrittenLeaksChannel | JrtcAppWrapper.CreateStreamsKeepsChannels, JrtcAppWrapper.CorrectionKeepsOutcome |
