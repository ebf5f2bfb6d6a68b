/**
 * The shape of the DynamoDB items the upload core stores and reads: the attributes the session
 * and part records use, each holding a string, a number, or NULL.
 */
module DynamoItem {
  import opened Wrappers

  /** A DynamoDB attribute value: string, number, or NULL (what `None` is stored as). */
  datatype Attr = S(s: string) | N(n: int) | Null

  /**
   * An item, attribute by attribute: each field is named as the attribute is and is `None`
   * when the item has no such attribute.
   */
  datatype Item = Item(
    PK: Option<Attr>,
    SK: Option<Attr>,
    GSI1PK: Option<Attr>,
    GSI1SK: Option<Attr>,
    GSI2PK: Option<Attr>,
    GSI2SK: Option<Attr>,
    GSI3PK: Option<Attr>,
    GSI3SK: Option<Attr>,
    entity: Option<Attr>,
    upload_type: Option<Attr>,
    upload_id: Option<Attr>,
    user_sub: Option<Attr>,
    bucket: Option<Attr>,
    key: Option<Attr>,
    content_type: Option<Attr>,
    total_parts: Option<Attr>,
    parts_received: Option<Attr>,
    part_size: Option<Attr>,
    bytes_total: Option<Attr>,
    bytes_uploaded: Option<Attr>,
    status: Option<Attr>,
    started_at: Option<Attr>,
    completed_at: Option<Attr>,
    ttl: Option<Attr>,
    s3_mpu_id: Option<Attr>,
    error_code: Option<Attr>,
    error_message: Option<Attr>,
    project_id: Option<Attr>,
    part_number: Option<Attr>,
    etag: Option<Attr>,
    size: Option<Attr>,
    uploaded_at: Option<Attr>)

  /** The item with no attributes. */
  const EMPTY: Item := Item(None, None, None, None, None, None, None, None, None, None, None, None, None, None, None, None, None, None, None, None, None, None, None, None, None, None, None, None, None, None, None, None)

  /** A NULL attribute is left out. */
  function Keep(a: Option<Attr>): (r: Option<Attr>)
    ensures r.Some? <==> a.Some? && a.value != Null
    ensures r.Some? ==> r == a
  {
    if a == Some(Null) then None else a
  }

  /** The item without its NULL attributes. */
  function DropNulls(i: Item): Item {
    Item(
      Keep(i.PK),
      Keep(i.SK),
      Keep(i.GSI1PK),
      Keep(i.GSI1SK),
      Keep(i.GSI2PK),
      Keep(i.GSI2SK),
      Keep(i.GSI3PK),
      Keep(i.GSI3SK),
      Keep(i.entity),
      Keep(i.upload_type),
      Keep(i.upload_id),
      Keep(i.user_sub),
      Keep(i.bucket),
      Keep(i.key),
      Keep(i.content_type),
      Keep(i.total_parts),
      Keep(i.parts_received),
      Keep(i.part_size),
      Keep(i.bytes_total),
      Keep(i.bytes_uploaded),
      Keep(i.status),
      Keep(i.started_at),
      Keep(i.completed_at),
      Keep(i.ttl),
      Keep(i.s3_mpu_id),
      Keep(i.error_code),
      Keep(i.error_message),
      Keep(i.project_id),
      Keep(i.part_number),
      Keep(i.etag),
      Keep(i.size),
      Keep(i.uploaded_at))
  }
}
