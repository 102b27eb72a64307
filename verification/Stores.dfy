/** The two artifact stores: a local file written as it goes, and an object put in one piece. */
module Stores {
  import opened Basics
  import opened Csv
  import Wire

  type Bytes = seq<bv8>

  /** Encoding goes character by character, as UTF-8 does. */
  function Encoded(encode: char -> Bytes, text: string): Bytes {
    if text == "" then [] else encode(text[0]) + Encoded(encode, text[1..])
  }

  lemma EncodedOne(encode: char -> Bytes, ch: char)
    ensures Encoded(encode, [ch]) == encode(ch)
  {
    assert [ch][1..] == "";
  }

  lemma {:induction false} EncodedAppend(encode: char -> Bytes, a: string, b: string)
    ensures Encoded(encode, a + b) == Encoded(encode, a) + Encoded(encode, b)
  {
    if a == "" {
      assert a + b == b;
    } else {
      assert (a + b)[1..] == a[1..] + b;
      EncodedAppend(encode, a[1..], b);
      assert encode(a[0]) + (Encoded(encode, a[1..]) + Encoded(encode, b)) == Encoded(encode, a) + Encoded(encode, b);
    }
  }

  /** What a text file holds: its writes, each encoded on its own, are the whole text encoded. */
  method EncodeChunks(encode: char -> Bytes, chunks: seq<string>) returns (bytes: Bytes)
    ensures bytes == Encoded(encode, Concatenated(chunks))
  {
    bytes := [];
    assert chunks[0..] == chunks;
    for i := 0 to |chunks|
      invariant bytes + Encoded(encode, Concatenated(chunks[i..])) == Encoded(encode, Concatenated(chunks))
    {
      ghost var was := bytes;
      EncodedAppend(encode, chunks[i], Concatenated(chunks[i + 1..]));
      assert chunks[i..][1..] == chunks[i + 1..];
      bytes := bytes + Encoded(encode, chunks[i]);
      assert bytes + Encoded(encode, Concatenated(chunks[i + 1..])) == was + Encoded(encode, Concatenated(chunks[i..]));
    }
  }

  method Uuid4() returns (id: Wire.Uuid) {
    id := *;
  }

  // `LocalArtifactStore`: the files under its root, by key.
  class LocalArtifactStore {
    const prefix: string
    const encode: char -> Bytes
    var files: map<string, Bytes>

    constructor (prefix: string, encode: char -> Bytes)
      ensures this.prefix == prefix && this.encode == encode && files == map[]
    {
      this.prefix := prefix;
      this.encode := encode;
      files := map[];
    }

    /** The file is opened with newline="" and every write is encoded on its own. */
    method PutCsvReport(job: Wire.Uuid, rows: seq<Row>) returns (key: string, kind: string, report: Wire.Uuid)
      modifies this
      ensures key == Wire.KeyText(prefix, job, report) && kind == "text/csv"
      ensures files == old(files)[key := Encoded(encode, FileText([HEADER] + rows))]
    {
      hide Wire.KeyText, FileText, Lines, Encoded, Concatenated;
      report := Uuid4();
      key, kind := Wire.KeyText(prefix, job, report), "text/csv";
      var handle := new TextStream(Untranslated);
      var writer := new DictWriter(handle);
      writer.WriteReport(rows);
      assert handle.chunks == Lines(Untranslated, [HEADER] + rows);
      LinesAreTheText(Untranslated, [HEADER] + rows);
      var bytes := EncodeChunks(encode, handle.chunks);
      files := files[key := bytes];
    }
  }

  // `S3ArtifactStore`: the objects of its bucket, by key.
  class S3ArtifactStore {
    const prefix: string
    const encode: char -> Bytes
    var objects: map<string, Bytes>

    constructor (prefix: string, encode: char -> Bytes)
      ensures this.prefix == prefix && this.encode == encode && objects == map[]
    {
      this.prefix := prefix;
      this.encode := encode;
      objects := map[];
    }

    /** The rows go to an in-memory stream, whose newline is a line feed; its whole value is encoded at the end. */
    method PutCsvReport(job: Wire.Uuid, rows: seq<Row>) returns (key: string, kind: string, report: Wire.Uuid)
      modifies this
      ensures key == Wire.KeyText(prefix, job, report) && kind == "text/csv"
      ensures objects == old(objects)[key := Encoded(encode, FileText([HEADER] + rows))]
    {
      hide Wire.KeyText, FileText, Lines, Encoded, Concatenated;
      report := Uuid4();
      key, kind := Wire.KeyText(prefix, job, report), "text/csv";
      var output := new TextStream(LineFeed);
      var writer := new DictWriter(output);
      writer.WriteReport(rows);
      LinesAreTheText(LineFeed, [HEADER] + rows);
      assert output.chunks == Lines(LineFeed, [HEADER] + rows);
      objects := objects[key := Encoded(encode, Concatenated(output.chunks))];
    }
  }

  /** Given the same report the two stores hold the same bytes, whatever the encoding. */
  method PutBoth(local: LocalArtifactStore, s3: S3ArtifactStore, job: Wire.Uuid, rows: seq<Row>)
    returns (localKey: string, s3Key: string)
    requires local.encode == s3.encode
    modifies local, s3
    ensures localKey in local.files && s3Key in s3.objects && local.files[localKey] == s3.objects[s3Key]
  {
    var kind, report;
    localKey, kind, report := local.PutCsvReport(job, rows);
    s3Key, kind, report := s3.PutCsvReport(job, rows);
  }
}
