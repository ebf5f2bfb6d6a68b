# File upload core, modelled in Dafny

This project models `apps/file_upload`, the upload core of the PDF/image analyser backend.
The core plans uploads into S3 and records each upload session in a DynamoDB table:

- A client asks for an upload plan. The service runs its validators. The uploader factory
  picks a strategy: one presigned `put_object` URL, or a multipart upload with one presigned
  `upload_part` URL per 20 MiB part. The strategy plans the upload. The session repository
  then writes a session header item, saves the S3 multipart id if there is one, and files the
  session under `uploading`.
- The client later reports the upload done. The service reads the session context and plan
  back from the table, picks the strategy again, completes, and marks the session
  `available`. If completion raises, it marks the session with an error instead.
- Aborting marks the session with an error.
- Downloads are presigned `get_object` URLs.

The modules follow the source files:

| module | file | models |
|---|---|---|
| `KeyBuilder` | `key_builder.dfy` | `safe_name`, `compute_prefix`, `key_for_single`, `key_for_multipart` |
| `Partitioning` | `partitioning.dfy` | `plan_part_size` and its constants |
| `SizeLimit`, `ContentType`, `EmptyKey` | the three validator files | the validators |
| `SingleUploader`, `MultiUploader` | `s3_single_uploader.dfy`, `s3_multi_uploader.dfy` | the two S3 strategies |
| `UploaderPort` | `uploader_port.dfy` | the strategy protocol, as a choice between the two strategies |
| `Downloader` | `s3_downloader.dfy` | the GET presigner |
| `UploaderFactories`, `DownloaderFactories` | the two factory files | the factories |
| `SessionSchema`, `PartSchema` | the two schema files | the pydantic schemas, with construction (strip, then validate) and `to_dynamo` |
| `SessionRepository` | `dynamo_session_repository.dfy` | the repository |
| `Services` | `file_service.dfy` | `FileService` |

Support modules:

- `Types`: the enums, the DTOs and the exceptions.
- `Wrappers`: `Option` and `Result`.
- `PyText`: the Python string built-ins the core uses.
- `CivilTime`: `datetime.fromtimestamp` in UTC and `strftime("%Y%m%d%H%M%S")`.
- `DynamoItem`: items as attribute maps.
- `S3`: a storage client object that records every call it receives.

Each state-changing operation is a method:

- A repository method changes the table field of the `DynamoSessionRepository` class.
- A strategy method appends to the client's call log.
- A `FileService` method runs the validator loop and the try/except/finally of the source.

Each method is proved against a function on values. Examples: `SetStatusTable` for
`set_status`, `SingleUploader.PlanRun` for a single-part `plan`, and `RecordPlan` for the
repository half of `plan_upload`. The lemmas are proved about those functions.

Values the source takes from its environment are inputs to the model:

- the uuid a strategy draws is a parameter, `sessionId`;
- the clock is an object whose readings are a caller-chosen function of how often it has been
  read;
- every answer of the storage client is a caller-chosen function of the call and its position;
- the configured bucket is a field of each strategy.

The model shows these behaviours of the source:

- `mark_error` does not rebuild the GSI2/GSI3 status keys. A session that fails is therefore
  still filed under `STATUS#uploading` (`ErrorAfterCreateLeavesStaleIndex`).
- `mark_available` stamps only `completed_at` (`MarkAvailableOnlyStamps`).
- `abort_multipart` does nothing, so an aborted multipart upload stays open in S3.
- `get_ctx` rebuilds the filename from the key's last `/` segment. For a single-part key that
  is `0001__<safe name>`, and the rebuilt prefix is `prefix + upload_id + "/"`
  (`StoredKeyRehydrates`).
- A session header always says `multi_part`, whatever the plan (`SessionSchema.New`).
- In `complete_upload` the two lookups and the strategy choice run before the `try`. An unknown
  session therefore raises `KeyError` without being marked.
- `safe_name` turns only the space into `_`. Other whitespace inside the name becomes `-`.
- The completion payload a multipart plan hands out has an empty part list. Submitting it
  unchanged is refused before any storage call (`PlanPayloadIncomplete`).

## Model

| member | source | states |
|---|---|---|
| Partitioning.CeilDiv | apps/file_upload/domain/logic/partitioning.py:10 | the quotient is the least `q` with `a <= q * b` |
| Partitioning.PlanPartSize | apps/file_upload/domain/logic/partitioning.py:3-11 | the part size is the 20 MiB target, which is at least the 5 MiB minimum; there is at least one part; for a positive size the parts cover the file with less than one part to spare; a size of zero or less gets one part |
| Partitioning.PlanPartSizeMonotone | apps/file_upload/domain/logic/partitioning.py:8-11 | a larger file never gets fewer parts |
| Partitioning.PlanPartSizeIsLeast | apps/file_upload/domain/logic/partitioning.py:8-11 | no smaller part count covers the file |
| Partitioning.PlanPartSizeExamples | apps/file_upload/domain/logic/partitioning.py:3-11 | the threshold is 100 MiB; 500 MiB gives 25 parts; 0 bytes gives 1 part; one byte over the threshold gives 6 parts |
| KeyBuilder.ReplaceSpace | apps/file_upload/domain/logic/key_builder.py:7 | same length; each space becomes `_` and every other character is kept |
| KeyBuilder.SubUnsafe | apps/file_upload/domain/logic/key_builder.py:8 | same length; each character outside `[A-Za-z0-9._-]` becomes `-` and every other character is kept |
| KeyBuilder.SafeName | apps/file_upload/domain/logic/key_builder.py:6-8 | the result is as long as the stripped name, and every character of it is safe |
| KeyBuilder.SafeNameChars | apps/file_upload/domain/logic/key_builder.py:6-8 | sanitising works character by character on the stripped name |
| KeyBuilder.SafeNameIdempotent | apps/file_upload/domain/logic/key_builder.py:6-8 | sanitising a sanitised name changes nothing |
| KeyBuilder.SafeNameIgnoresOuterWhitespace | apps/file_upload/domain/logic/key_builder.py:7 | whitespace around the name does not change the result |
| KeyBuilder.SafeNameInteriorWhitespace | apps/file_upload/domain/logic/key_builder.py:7-8 | whitespace left after stripping becomes `_` if it is a space and `-` otherwise |
| KeyBuilder.SafeNameKeepsSafeChars | apps/file_upload/domain/logic/key_builder.py:8 | safe characters of the stripped name are kept |
| KeyBuilder.DateSegmentLayout | apps/file_upload/domain/logic/key_builder.py:13 | for years 1000 to 9999 the date segment has 26 characters, ends in `/` and reads back as the date |
| KeyBuilder.ComputePrefix | apps/file_upload/domain/logic/key_builder.py:11-13 | renders `user/<sub>/project/<id>/year=<YYYY>/month=<MM>/day=<DD>/` from the date's fields; `ComputePrefixLayout` and `ComputePrefixDistinguishesDays` state its layout and what it tells apart |
| KeyBuilder.ComputePrefixLayout | apps/file_upload/domain/logic/key_builder.py:11-13 | the prefix is `user/<sub>/project/<id>/` followed by the date segment, and ends in `/` |
| KeyBuilder.ComputePrefixDistinguishesDays | apps/file_upload/domain/logic/key_builder.py:11-13 | two dates give the same prefix only when they are the same calendar day |
| KeyBuilder.KeyForSingle | apps/file_upload/domain/logic/key_builder.py:16-18 | renders `prefix + upload_id + "/"`, the sequence number zero-padded to four digits, `__` and the safe name; `KeyForSingleSequence` and `KeyForSingleLastSegment` state its layout |
| KeyBuilder.KeyForSingleSequence | apps/file_upload/domain/logic/key_builder.py:16-18 | for sequence numbers 0 to 9999 the key starts with `prefix + upload_id + "/"`, and different numbers give different keys |
| KeyBuilder.KeyForSingleLastSegment | apps/file_upload/domain/logic/key_builder.py:16-18 | splitting on `/` gives `<seq:04d>__<safe name>` as the last piece, and the other pieces join to `prefix + upload_id` |
| KeyBuilder.KeyForMultipart | apps/file_upload/domain/logic/key_builder.py:21-23 | renders `prefix + upload_id + "/"` followed by the safe name, one key for every part; `KeyForMultipartStartsWithPrefix` and `KeyForMultipartLastSegment` state its layout |
| KeyBuilder.KeyForMultipartStartsWithPrefix | apps/file_upload/domain/logic/key_builder.py:21-23 | the multipart key starts with `prefix + upload_id + "/"` |
| KeyBuilder.KeyForMultipartLastSegment | apps/file_upload/domain/logic/key_builder.py:21-23 | the last `/` piece is the safe name, and the other pieces join to `prefix + upload_id` |
| SizeLimit.DefaultSizeLimitValidator | apps/file_upload/domain/validators/size_limit_validator.py:8 | the default ceiling is 5 GiB |
| SizeLimit.Handle | apps/file_upload/domain/validators/size_limit_validator.py:10-12 | refuses exactly the files larger than the ceiling, with `ValueError("File size exceeds limit: <ceiling>")` |
| SizeLimit.HandleAcceptsCeiling | apps/file_upload/domain/validators/size_limit_validator.py:11 | a file exactly at the ceiling passes |
| SizeLimit.HandleRejectionMonotone | apps/file_upload/domain/validators/size_limit_validator.py:11 | once a size is refused, every larger size is refused |
| SizeLimit.HandleReadsOnlySize | apps/file_upload/domain/validators/size_limit_validator.py:10-12 | contexts with equal sizes get equal verdicts |
| ContentType.Handle | apps/file_upload/domain/validators/content_type_validator.py:11-14 | passes exactly when the allow-list is empty or holds the lower-cased content type; otherwise raises `ValueError("Invalid content type: <type as given>")` |
| ContentType.EmptyAllowListAcceptsAll | apps/file_upload/domain/validators/content_type_validator.py:9-13 | the default empty allow-list accepts every context |
| ContentType.HandleIgnoresContextCase | apps/file_upload/domain/validators/content_type_validator.py:12 | content types equal up to ASCII case get equal verdicts |
| ContentType.UpperCaseEntryNeverMatches | apps/file_upload/domain/validators/content_type_validator.py:12-13 | an allow-list entry with an upper-case letter never matches |
| ContentType.EmptyContentType | apps/file_upload/domain/validators/content_type_validator.py:12-13 | an empty content type is refused by a non-empty list that does not hold `""` |
| ContentType.ContentTypeExamples | apps/file_upload/domain/validators/content_type_validator.py:11-14 | `APPLICATION/PDF` passes the list `["application/pdf"]`; `image/png` does not |
| EmptyKey.Handle | apps/file_upload/domain/validators/empty_key_validator.py:6-8 | refuses exactly the empty key, with `ValueError("Key is required")` |
| EmptyKey.HandleReadsOnlyKey | apps/file_upload/domain/validators/empty_key_validator.py:6-8 | every non-empty key passes, `" "` and `"/"` included; bucket and provider are not looked at |
| EmptyKey.EmptyKeyExamples | apps/file_upload/domain/validators/empty_key_validator.py:6-8 | the keys `" "` and `"/"` pass with any provider and bucket; `""` fails |
| SingleUploader.PlanRun | apps/file_upload/infrastructure/aws/s3_single_uploader.py:14-37 | renders `plan` as the calls it makes and its outcome: one `put_object` presign, then the single-part plan or the presign's error; `PlanRunSpec` states it |
| SingleUploader.PlanRunSpec | apps/file_upload/infrastructure/aws/s3_single_uploader.py:14-37 | exactly one `put_object` presign for the bucket, the `key_for_single(..., 1, ...)` key and the content type, valid 3600 s; the plan exists exactly when that call succeeds; a plan is single-part with the URL as `put_url`, the session id as upload id, and a payload with the same bucket, key and id |
| SingleUploader.PlanKeyLayout | apps/file_upload/infrastructure/aws/s3_single_uploader.py:16 | the planned key lies under `prefix + upload_id + "/"`, and its last segment is `0001__<safe name>` |
| SingleUploader.Plan | apps/file_upload/infrastructure/aws/s3_single_uploader.py:14-37 | the client log gains exactly the calls of `PlanRun`, and the result is its outcome |
| SingleUploader.Complete | apps/file_upload/infrastructure/aws/s3_single_uploader.py:39-41 | returns without a call or an error |
| MultiUploader.PresignParts | apps/file_upload/infrastructure/aws/s3_multi_uploader.py:27-39 | at most `n` calls; a success has exactly `n` calls and `n` URLs |
| MultiUploader.PresignPartsCalls | apps/file_upload/infrastructure/aws/s3_multi_uploader.py:27-39 | call `i` presigns part number `i + 1` with the same bucket, key and multipart id, valid 3600 s |
| MultiUploader.PresignPartsSucceeds | apps/file_upload/infrastructure/aws/s3_multi_uploader.py:27-39 | the URLs come back exactly when every presign of parts `1..n` succeeds |
| MultiUploader.PresignPartsUrls | apps/file_upload/infrastructure/aws/s3_multi_uploader.py:27-39 | URL `i` is the client's answer to the presign of part `i + 1` |
| MultiUploader.PresignPartsFails | apps/file_upload/infrastructure/aws/s3_multi_uploader.py:27-39 | a failure stops at the first failed presign and raises its error |
| MultiUploader.PresignPartsStops | apps/file_upload/infrastructure/aws/s3_multi_uploader.py:27-39 | after a failure, a larger part count changes nothing |
| MultiUploader.PlanRun | apps/file_upload/infrastructure/aws/s3_multi_uploader.py:15-56 | renders `plan` as the calls it makes and its outcome: `create_multipart_upload`, then one `upload_part` presign per part, then the multipart plan or the first error; `PlanRunInitiatesFirst`, `PlanRunPlan` and `PlanRunPartUrls` state it |
| MultiUploader.PlanRunInitiatesFirst | apps/file_upload/infrastructure/aws/s3_multi_uploader.py:15-24 | the first and only `create_multipart_upload` comes before any presign, for the configured bucket, the multipart key and the content type; a failure there ends `plan` with that error |
| MultiUploader.PlanRunPlan | apps/file_upload/infrastructure/aws/s3_multi_uploader.py:26-56 | a plan is multipart and sized by `plan_part_size`, has no `put_url` and one URL per part; its payload carries the initiate's multipart id and an empty part list |
| MultiUploader.PlanRunPartUrls | apps/file_upload/infrastructure/aws/s3_multi_uploader.py:27-48 | call `1 + i` presigned part `i + 1`, and part URL `i` is that call's answer |
| MultiUploader.PlanKeyLayout | apps/file_upload/infrastructure/aws/s3_multi_uploader.py:17 | the key lies under `prefix + upload_id + "/"` and its last segment is the safe name |
| MultiUploader.Plan | apps/file_upload/infrastructure/aws/s3_multi_uploader.py:15-56 | the client log gains exactly the calls of `PlanRun`, and the result is its outcome |
| MultiUploader.PresignAll | apps/file_upload/infrastructure/aws/s3_multi_uploader.py:27-39 | the loop adds exactly the calls of `PresignParts` and returns its outcome |
| MultiUploader.Complete | apps/file_upload/infrastructure/aws/s3_multi_uploader.py:58-66 | a payload without a multipart id or without parts raises `ValueError` before any call; otherwise one `complete_multipart_upload` with the payload's bucket, key, id and parts in their order, raising what the client raises |
| MultiUploader.PlanPayloadIncomplete | apps/file_upload/infrastructure/aws/s3_multi_uploader.py:49-60 | the payload of a multipart plan, submitted unchanged, is refused |
| UploaderPort.CompleteRun | apps/file_upload/domain/ports/uploader.py:8 | single-part: no call and no error; multipart: the refusal, or one completion call whose answer decides the outcome |
| UploaderPort.Plan | apps/file_upload/domain/ports/uploader.py:7 | the chosen strategy's `plan`: the client log gains its calls and the result is its outcome |
| UploaderPort.Complete | apps/file_upload/domain/ports/uploader.py:8 | the chosen strategy's `complete`, as `CompleteRun` says |
| Downloader.GetParamsContents | apps/file_upload/infrastructure/aws/s3_downloader.py:26-31 | the parameters are exactly `Bucket`, `Key` and the header names; headers win; otherwise the bucket (the configured one when the given one is empty) and the key |
| Downloader.GetParamsWithoutHeaders | apps/file_upload/infrastructure/aws/s3_downloader.py:26-31 | no headers and an empty header map give the same two parameters |
| Downloader.PresignGet | apps/file_upload/infrastructure/aws/s3_downloader.py:18-38 | exactly one `get_object` presign with those parameters and the given expiry; its answer is the result |
| UploaderFactories.DefaultUploaderFactory | apps/file_upload/application/factories/uploader_factory.py:16-24 | the default threshold is 100 MiB |
| UploaderFactories.ForCtx | apps/file_upload/application/factories/uploader_factory.py:26-33 | succeeds exactly for `aws`; multipart exactly when the size is strictly above the threshold; the factory's own strategies; otherwise `NotImplementedError` naming the provider |
| UploaderFactories.ForCtxAtThreshold | apps/file_upload/application/factories/uploader_factory.py:28 | a file of exactly the threshold goes single-part |
| UploaderFactories.ForCtxMonotone | apps/file_upload/application/factories/uploader_factory.py:28 | a larger file never goes back from multipart to single-part |
| UploaderFactories.ForCtxReadsProviderAndSize | apps/file_upload/application/factories/uploader_factory.py:26-33 | contexts with equal provider and size get the same answer |
| UploaderFactories.DefaultMultiExactlyBeyondFiveParts | apps/file_upload/application/factories/uploader_factory.py:20-30 | with the default threshold a file goes multipart exactly when it needs more than five 20 MiB parts |
| DownloaderFactories.ForProvider | apps/file_upload/application/factories/downloader_factory.py:8-11 | the presigner exactly for `aws`; otherwise `NotImplementedError` naming the provider |
| DownloaderFactories.ForProviderRefusesOthers | apps/file_upload/application/factories/downloader_factory.py:9-11 | `azure` and `gcp` are refused, with their names in the message |
| CivilTime.FromTimestamp | apps/file_upload/domain/schemas/dynamo_session_schema.py:97 | a valid date from 1970 on that maps back to the same second; `ValueError` from year 10000 onward (far larger timestamps raise other exceptions in CPython, see "Left out") |
| CivilTime.TimestampOfInjective | apps/file_upload/domain/schemas/dynamo_session_schema.py:97-99 | distinct instants render to distinct 14-digit stamps |
| SessionSchema.Construct | apps/file_upload/domain/schemas/dynamo_session_schema.py:25-77 | succeeds exactly when the stripped fields meet the constraints and validators, and then holds the stripped fields; otherwise `ValidationError` |
| SessionSchema.New | apps/file_upload/domain/schemas/dynamo_session_schema.py:83-127 | succeeds exactly when the stamp renders and the numbers are in bounds; the record is `uploading` and `multi_part`, with zero counters, no part size and no completion time, and the given start, counts and TTL |
| SessionSchema.NewKeyLayout | apps/file_upload/domain/schemas/dynamo_session_schema.py:97-110 | with a stripped sub and id, the eight keys are exactly the documented layout around the 14-digit stamp |
| SessionSchema.NewSkTimestamp | apps/file_upload/domain/schemas/dynamo_session_schema.py:100 | the SK's second `#` field is the stamp, whatever the upload id |
| SessionSchema.ModelDump | apps/file_upload/domain/schemas/dynamo_session_schema.py:80 | renders every field under its attribute name, with the constant `entity` `session` and each `None` field as NULL (the alias-keyed dump is an assumption, see "Left out") |
| SessionSchema.ToDynamo | apps/file_upload/domain/schemas/dynamo_session_schema.py:79-81 | renders the dump with every NULL attribute dropped; `ItemAttributes` states the item attribute by attribute |
| SessionSchema.ItemAttributes | apps/file_upload/domain/schemas/dynamo_session_schema.py:79-81 | the item holds the eight keys, `entity` `session`, the upload type, the upload id, the owner, bucket and key, the status, both counters and `started_at`; each optional field, `ttl` among them, is stored exactly when it has a value; the attributes other writers add are absent |
| PartSchema.Construct | apps/file_upload/domain/schemas/dynamo_part_schema.py:22-47 | succeeds exactly when the stripped fields meet the constraints and validators; otherwise `ValidationError` |
| PartSchema.New | apps/file_upload/domain/schemas/dynamo_part_schema.py:52-74 | succeeds exactly when the part number and upload time are positive and the size is not negative; the part number is stored unpadded |
| PartSchema.NewKeyLayout | apps/file_upload/domain/schemas/dynamo_part_schema.py:63-68 | the four keys are exactly `USER#<sub>`, `PART#<id>#<n:05d>`, `UPL#<id>` and `PART#<n:05d>` |
| PartSchema.PartKeysSorted | apps/file_upload/domain/schemas/dynamo_part_schema.py:63-68 | for part numbers 1 to 99999 of one upload, SK and GSI1SK sort in part-number order |
| PartSchema.PartNotSessionKey | apps/file_upload/domain/schemas/dynamo_part_schema.py:67-68 | a part shares its session's GSI1 partition but never matches the `SESS#` session lookup |
| PartSchema.ToDynamo | apps/file_upload/domain/schemas/dynamo_part_schema.py:49-50 | renders every field under its attribute name, an unset GSI1 key as NULL; `ItemKeepsEveryField` states it |
| PartSchema.ItemKeepsEveryField | apps/file_upload/domain/schemas/dynamo_part_schema.py:49-50 | every field reaches the item; an unset GSI1 key is stored as NULL |
| SessionRepository.Clock.Now | apps/file_upload/infrastructure/repositories/dynamo_session_repository.py:21-22 | the next reading, with the read count advanced by one |
| SessionRepository.QueryGsi1 | apps/file_upload/infrastructure/repositories/dynamo_session_repository.py:25-31 | none exactly when no item matches `UPL#<id>` with a `SESS#` sort key; otherwise a match with the least GSI1SK, ties broken by the least PK, then the least SK |
| SessionRepository.GetByGsi1 | apps/file_upload/infrastructure/repositories/dynamo_session_repository.py:24-35 | the first match, which is that id's session header; `KeyError("session not found: <id>")` when there is none |
| SessionRepository.SessionRecord | apps/file_upload/infrastructure/repositories/dynamo_session_repository.py:39-50 | renders `FileUploadSessionSchema.new` of the context's owner, size and content type, the plan's id, bucket, key and part count, the second clock reading as `started_at` and the first plus 604800 s as `ttl`; `CreatedRecordFields` states the record |
| SessionRepository.PutSession | apps/file_upload/infrastructure/repositories/dynamo_session_repository.py:53-56 | renders the conditional `put_item`: the record's item is stored under its PK and SK when no item has that key, and `ConditionalCheckFailed` leaves the table as it was when one does; the table stays valid |
| SessionRepository.CreateSessionTable | apps/file_upload/infrastructure/repositories/dynamo_session_repository.py:38-56 | renders `create_session`: a failing `new` raises its error, otherwise `PutSession` of the record; the table stays valid and a failure leaves it unchanged |
| SessionRepository.CreateSessionConditional | apps/file_upload/infrastructure/repositories/dynamo_session_repository.py:38-56 | succeeds exactly when the record validates and its key is free, and then adds that item; a validation error, or `ConditionalCheckFailed` for a taken key, leaves the table unchanged |
| SessionRepository.CreateSessionKeepsItems | apps/file_upload/infrastructure/repositories/dynamo_session_repository.py:52-56 | no item already in the table is overwritten or removed |
| SessionRepository.CreatedRecordFields | apps/file_upload/infrastructure/repositories/dynamo_session_repository.py:39-50 | the record takes the stripped upload id, bucket, key and content type, the size and the plan's part count, with no part size; it is `multi_part` and `uploading` with zero counters and no completion time, starts at the second reading and expires 604800 s after the first |
| SessionRepository.CreatedItemFields | apps/file_upload/infrastructure/repositories/dynamo_session_repository.py:38-56 | after a successful create, the stored header says `entity` `session`, `upload_type` `multi_part` whatever the plan, `status` `uploading`, zero parts and bytes, the file size, `started_at` the second reading and `ttl` the first reading plus 604800, with no `completed_at` or `part_size` |
| SessionRepository.CreatedSessionFound | apps/file_upload/infrastructure/repositories/dynamo_session_repository.py:38-56 | for an id nothing answers to, the new header is the only match afterwards, and the lookup finds it |
| SessionRepository.CreatedSessionCtx | apps/file_upload/infrastructure/repositories/dynamo_session_repository.py:106-121 | `get_ctx` after creation gives `aws`, the owner, project `default`, the stripped content type, the size, and the filename and prefix split off the stored key |
| SessionRepository.CreatedSessionPlan | apps/file_upload/infrastructure/repositories/dynamo_session_repository.py:123-143 | `get_plan` after creation gives multipart exactly when a part count was planned, the stripped bucket and key, that count and no part size; `get_multipart_id` gives none |
| SessionRepository.CtxPrefixAndFilename | apps/file_upload/infrastructure/repositories/dynamo_session_repository.py:115-117 | the rebuilt filename has no `/`; for a key with a `/`, prefix and filename concatenate to the key; for a key without one, the filename is the whole key and the prefix is `/` |
| SessionRepository.StoredKeyRehydrates | apps/file_upload/infrastructure/repositories/dynamo_session_repository.py:115-117 | for the strategies' keys the rebuilt filename is the safe name (behind `0001__` for single-part) and the prefix is `prefix + upload_id + "/"` |
| SessionRepository.WithStatus | apps/file_upload/infrastructure/repositories/dynamo_session_repository.py:63-73 | renders the `update_item` of `set_status`: `status`, `GSI2PK` `STATUS#<status>`, `GSI2SK` `<ts>#USER#<sub>#<id>`, `GSI3PK` `USER#<sub>#STATUS#<status>` and `GSI3SK` `<ts>#<id>`, every other attribute kept |
| SessionRepository.SetStatusTable | apps/file_upload/infrastructure/repositories/dynamo_session_repository.py:58-74 | renders `set_status`: `KeyError` with the table unchanged when no header is found, otherwise the header rewritten by `WithStatus` with its SK's stamp; the table stays valid |
| SessionRepository.MarkAvailableTable | apps/file_upload/infrastructure/repositories/dynamo_session_repository.py:76-83 | renders `mark_available`: `KeyError` with the table unchanged when no header is found, otherwise `completed_at` set to the reading taken after the lookup; the table stays valid |
| SessionRepository.MarkErrorTable | apps/file_upload/infrastructure/repositories/dynamo_session_repository.py:85-96 | renders `mark_error`: `KeyError` with the table unchanged when no header is found, otherwise `status` `error`, `error_code` and `error_message` set; the table stays valid |
| SessionRepository.SaveMultipartIdTable | apps/file_upload/infrastructure/repositories/dynamo_session_repository.py:98-104 | renders `save_multipart_id`: `KeyError` with the table unchanged when no header is found, otherwise `s3_mpu_id` set; the table stays valid |
| SessionRepository.SetStatusTouchesOnlyTheSession | apps/file_upload/infrastructure/repositories/dynamo_session_repository.py:58-74 | `KeyError` with the table unchanged exactly when no header is found; otherwise only that header is rewritten, in place, with its key, GSI1 entry and types kept |
| SessionRepository.MarkAvailableTouchesOnlyTheSession | apps/file_upload/infrastructure/repositories/dynamo_session_repository.py:76-83 | the same, for `mark_available` |
| SessionRepository.MarkErrorTouchesOnlyTheSession | apps/file_upload/infrastructure/repositories/dynamo_session_repository.py:85-96 | the same, for `mark_error` |
| SessionRepository.SaveMultipartIdTouchesOnlyTheSession | apps/file_upload/infrastructure/repositories/dynamo_session_repository.py:98-104 | the same, for `save_multipart_id` |
| SessionRepository.CtxOfItem | apps/file_upload/infrastructure/repositories/dynamo_session_repository.py:111-121 | renders the rebuilt context: provider `aws`, the stored owner, project `default` unless stored, the key's last `/` piece as filename and the rest joined plus `/` as prefix, and the defaults for a missing content type and size; `CtxPrefixAndFilename` and `StoredKeyRehydrates` state what it gives back |
| SessionRepository.PlanOfItem | apps/file_upload/infrastructure/repositories/dynamo_session_repository.py:128-139 | renders the rebuilt plan: multipart exactly when a non-zero part count is stored, the queried id, the stored bucket and key, a zero or missing count or size as `None`, and no URLs or payload |
| SessionRepository.GetCtxOf | apps/file_upload/infrastructure/repositories/dynamo_session_repository.py:106-121 | succeeds exactly when a header is found, always with provider `aws`; otherwise `KeyError` |
| SessionRepository.GetPlanOf | apps/file_upload/infrastructure/repositories/dynamo_session_repository.py:123-139 | succeeds exactly when a header is found, with the queried id as upload id; otherwise `KeyError` |
| SessionRepository.GetMultipartIdOf | apps/file_upload/infrastructure/repositories/dynamo_session_repository.py:141-143 | succeeds exactly when a header is found; otherwise `KeyError` |
| SessionRepository.UpdatesKeepReads | apps/file_upload/infrastructure/repositories/dynamo_session_repository.py:58-139 | none of the four writes changes what `get_ctx` or `get_plan` answer, for any id |
| SessionRepository.StatusWritesKeepMultipartId | apps/file_upload/infrastructure/repositories/dynamo_session_repository.py:58-96 | the status writes leave `get_multipart_id` unchanged for every id |
| SessionRepository.SaveThenGetMultipartId | apps/file_upload/infrastructure/repositories/dynamo_session_repository.py:98-104 | after a successful save of `m`, `get_multipart_id` gives `m` |
| SessionRepository.SetStatusIdempotent | apps/file_upload/infrastructure/repositories/dynamo_session_repository.py:58-74 | setting the same status twice is setting it once |
| SessionRepository.UploadingAfterCreateRewritesNothing | apps/file_upload/infrastructure/repositories/dynamo_session_repository.py:58-74 | right after creation, `set_status("uploading")` rewrites the header to what `create_session` wrote |
| SessionRepository.MarkErrorKeepsStatusKeys | apps/file_upload/infrastructure/repositories/dynamo_session_repository.py:85-96 | `mark_error` sets `status = "error"`, the code and the message, and leaves the GSI2/GSI3 keys as they were |
| SessionRepository.ErrorAfterCreateLeavesStaleIndex | apps/file_upload/infrastructure/repositories/dynamo_session_repository.py:85-96 | a session marked as an error right after creation reads `error` but is still filed under `STATUS#uploading` |
| SessionRepository.MarkAvailableOnlyStamps | apps/file_upload/infrastructure/repositories/dynamo_session_repository.py:76-83 | `mark_available` sets `completed_at` to the reading and leaves the status and its index keys alone |
| SessionRepository.DynamoSessionRepository.constructor | apps/file_upload/infrastructure/repositories/dynamo_session_repository.py:17-18 | the repository over the given table contents and clock, with an empty call log |
| SessionRepository.DynamoSessionRepository.CreateSession | apps/file_upload/infrastructure/repositories/dynamo_session_repository.py:38-56 | the new table and the result are `CreateSessionTable` with the clock's next two readings, TTL first |
| SessionRepository.DynamoSessionRepository.SetStatus | apps/file_upload/infrastructure/repositories/dynamo_session_repository.py:58-74 | the new table and the result are `SetStatusTable` |
| SessionRepository.DynamoSessionRepository.MarkAvailable | apps/file_upload/infrastructure/repositories/dynamo_session_repository.py:76-83 | the new table and the result are `MarkAvailableTable`; the clock is read only when the session is found |
| SessionRepository.DynamoSessionRepository.MarkError | apps/file_upload/infrastructure/repositories/dynamo_session_repository.py:85-96 | the new table and the result are `MarkErrorTable` |
| SessionRepository.DynamoSessionRepository.SaveMultipartId | apps/file_upload/infrastructure/repositories/dynamo_session_repository.py:98-104 | the new table and the result are `SaveMultipartIdTable` |
| SessionRepository.DynamoSessionRepository.GetCtx | apps/file_upload/infrastructure/repositories/dynamo_session_repository.py:106-121 | the table is unchanged and the result is `GetCtxOf` |
| SessionRepository.DynamoSessionRepository.GetPlan | apps/file_upload/infrastructure/repositories/dynamo_session_repository.py:123-139 | the table is unchanged and the result is `GetPlanOf` |
| SessionRepository.DynamoSessionRepository.GetMultipartId | apps/file_upload/infrastructure/repositories/dynamo_session_repository.py:141-143 | the table is unchanged and the result is `GetMultipartIdOf` |
| SessionRepository.DynamoSessionRepository.AbortMultipart | apps/file_upload/infrastructure/repositories/dynamo_session_repository.py:145-147 | returns with nothing changed, for any id |
| Services.UploadChecks | apps/file_upload/application/services/file_service.py:43-44 | one answer per upload validator, in order |
| Services.DownloadChecks | apps/file_upload/application/services/file_service.py:76-77 | one answer per download validator, in order |
| Services.FirstFailure | apps/file_upload/application/services/file_service.py:43-44 | passes exactly when every check does; a failure is one of the checks' failures |
| Services.FirstFailureAt | apps/file_upload/application/services/file_service.py:43-44 | the loop raises the first failing check's error, whatever the later checks say |
| Services.DefaultUploadChecks | apps/file_upload/application/services/file_service.py:36-39 | with the default validators an upload is refused exactly above 5 GiB, with the size-limit message |
| Services.DefaultDownloadChecks | apps/file_upload/application/services/file_service.py:40 | with the default validators a download is refused exactly for the empty key |
| Services.MultipartIdToSave | apps/file_upload/application/services/file_service.py:49-51 | an id is saved exactly for a multipart plan whose payload has a non-empty `mpu_upload_id`, and it is that id |
| Services.RecordPlan | apps/file_upload/application/services/file_service.py:48-54 | renders the repository half of `plan_upload`: `create_session` with two clock readings, then `RecordCreated` unless it raised; the table stays valid and the clock is read twice |
| Services.RecordCreated | apps/file_upload/application/services/file_service.py:49-54 | renders the optional `save_multipart_id`, then `set_status("uploading")` unless the save raised; the table stays valid and the clock is not read |
| Services.RecordCompletion | apps/file_upload/application/services/file_service.py:61-67 | renders what follows `complete`: `mark_error("UPLOAD_ERROR", str(e))` and the exception raised again, or `mark_available` then `set_status("available")`; the table stays valid |
| Services.RecordPlanStopsAtFirstFailure | apps/file_upload/application/services/file_service.py:48-55 | the repository calls start with `create_session`, are a prefix of create, optional save, set status, are all of them when the plan is returned, and stop short only after a failure |
| Services.PlanRecordedReadsBack | apps/file_upload/application/services/file_service.py:48-55 | for a fresh id, once the put succeeds the rest succeeds; `get_ctx` and `get_plan` answer as right after the put, and `get_multipart_id` gives the plan's multipart id |
| Services.CompletionChoosesPlannedStrategy | apps/file_upload/application/services/file_service.py:45-60 | the strategy chosen on completion from the stored session is the one chosen on planning |
| Services.CompletionMarksAvailable | apps/file_upload/application/services/file_service.py:66-67 | a successful completion reads the clock once, stamps `completed_at`, files the session under `STATUS#available`, and changes no other item |
| Services.CompletionFailureMarksError | apps/file_upload/application/services/file_service.py:61-65 | a raising `complete` is recorded as `UPLOAD_ERROR` with `str(e)` and raised again; the status index is not updated |
| Services.CompletionOfMissingSession | apps/file_upload/application/services/file_service.py:64-67 | without a header nothing changes and `KeyError` is raised, replacing the strategy's exception |
| Services.AbortMarksAborted | apps/file_upload/application/services/file_service.py:69-73 | a found session is marked `UPLOAD_ABORTED` / `Upload aborted` with status `error`; an unknown id raises the `KeyError` of the `finally` |
| Services.Finally | apps/file_upload/application/services/file_service.py:70-73 | an exception in the cleanup replaces the body's outcome; otherwise the body's outcome stands |
| Services.FileService.constructor | apps/file_upload/application/services/file_service.py:31-40 | the service over the given factories, repository and validators |
| Services.FileService.WithDefaults | apps/file_upload/application/services/file_service.py:36-40 | the service with the default validators |
| Services.FileService.PlanUpload | apps/file_upload/application/services/file_service.py:42-55 | a refusing validator raises its error before any call; an unknown provider raises before any call; a failing strategy leaves the table alone; otherwise the table, the clock and the call log follow `RecordPlan`, and the plan is returned unless a repository call raised |
| Services.FileService.CompleteUpload | apps/file_upload/application/services/file_service.py:57-67 | an unknown session raises `KeyError` with nothing changed; otherwise the strategy chosen from the stored context completes, and the table, the clock and the outcome follow `RecordCompletion` |
| Services.FileService.AbortUpload | apps/file_upload/application/services/file_service.py:69-73 | `abort_multipart`, then `mark_error("UPLOAD_ABORTED", "Upload aborted")`; the table and the result follow `MarkErrorTable` through `Finally` |
| Services.FileService.PresignDownload | apps/file_upload/application/services/file_service.py:75-79 | a refusing validator or an unknown provider raises before any call; otherwise one GET presign of the context's bucket and key, valid 900 s, with no headers |

## Left out

- I/O and the environment. Reading the clock, drawing the uuid, the configured bucket
  (`settings.AWS_STORAGE_BUCKET_NAME`), and building the boto3 clients and the DynamoDB table
  handle (`get_s3_client`, `get_dynamodb_table`) are all inputs to the model.
- Network and service errors. Every S3 answer, `ClientError` included, is chosen by the
  caller. DynamoDB is modelled as an in-memory table. Its only error is the conditional-check
  failure of `create_session`; throttling and network errors of `query`, `put_item` and
  `update_item` are not modelled.
- Concurrency. The table is written by this repository alone (`ValidTable`), one call at a
  time. Under that assumption, a `get_plan` that fails right after `get_ctx` has succeeded, and
  a strategy choice that fails for a rebuilt context, cannot happen. `CompleteUpload` has no
  branches for them.
- Object identity. Each strategy and presigner is a value holding its client, so the
  factories' fresh instance per call (`lambda: S3SingleFileUploader()`, `S3Downloader()`) is
  not modelled. The core cannot observe the difference: the instances share the cached client.
- `get_file_service` and `_reset_singleton_for_tests`, the `lru_cache` singleton, are not
  modelled. `Services.FileService.WithDefaults` is the service they build.
- The ordering of a GSI1 query among items with the same index key is left open by DynamoDB.
  The model breaks ties by the least PK, then the least SK.
- Attribute values are strings, numbers or NULL (`DynamoItem`). `Decimal`, lists and maps
  are not modelled. The part schema's items are not stored by this core.
- Exception messages. A provider is written by its value (`aws`). This is what an f-string
  gives for a provider passed as a plain string, or on Python versions before 3.12; from 3.12
  on, a `ProviderEnum` member formats as `ProviderEnum.AWS`.
- CivilTime.FromTimestamp: every timestamp from year 10000 on fails with `ValueError`. CPython
  raises that only up to the platform's `time_t` and `gmtime` limits. Beyond about 6.7e16 s
  `gmtime` fails with `OSError` (`EOVERFLOW`). Beyond 2^63 − 1 s the conversion to `time_t`
  raises `OverflowError`. Those limits are platform-specific and far beyond any clock reading
  `create_session` takes, so the model reports them as `ValueError` too.
- The item dump. `to_dynamo` calls `model_dump(by_name=True)`, but pydantic's keyword for
  dumping under aliases is `by_alias`. As written, the call either raises `TypeError` or dumps
  the field names (`pk`, `gsi1_pk`) instead of the aliases. The model assumes the intended
  alias-keyed dump (`PK`, `GSI1PK`) that the repository's own reads (`item["PK"]`) and the
  GSI1 query expect (`SessionSchema.ModelDump`, `PartSchema.ToDynamo`).
- Index consistency. A DynamoDB global secondary index is only eventually consistent.
  `plan_upload` queries GSI1 in `save_multipart_id` and `set_status` right after the put, and
  that query may not see the new item yet and raise `KeyError`. The in-memory table answers
  every GSI1 query from the current items, so the model never shows this failure
  (`PlanRecordedReadsBack` holds only under that strong consistency).
- `ceil(size_bytes / part_size)` is computed exactly on integers. Python's float division
  differs from it only for sizes beyond 2^53 bytes.
- String handling. `str.strip` (Python's `isspace`) and pydantic's stripping (Unicode
  `White_Space`) are modelled as two whitespace sets. Case folding is ASCII-only. There is no
  Unicode normalisation.
- `UploadType.RESUMABLE` and the statuses `uploaded` and `completing` are declared but never
  produced by the core.
- The other upload paths are not part of this model: the Django viewsets, the serializers, the
  ORM models, and `apps/file_upload/services/file_service.py`.
