/** The subscription header of the open API (go-backend/controller/openapi_controller.go):
    the `subscription-userinfo` value built from a user's counters, or from one of the
    user's tunnel permissions. Token checking and the HTTP reply are not part of this model. */
module OpenApi {
  import opened Wrappers
  import opened Strs
  import opened Model

  const GigaBytes: int := 1024 * 1024 * 1024
  const NoTunnel: string := "隧道不存在"

  /** Go's `int64` arithmetic: the value wrapped into the 64-bit two's-complement range. */
  function Wrap64(x: int): (r: int)
    ensures InInt64(r)
    ensures InInt64(x) ==> r == x
  {
    (x - MinInt64) % 0x1_0000_0000_0000_0000 + MinInt64
  }

  /** Go's `/` on integers: the quotient truncated toward zero. */
  function GoQuot(a: int, b: int): (q: int)
    requires b > 0
    ensures a >= 0 ==> q == a / b
    ensures a < 0 ==> q == -((-a) / b)
    ensures InInt64(a) ==> InInt64(q)
  {
    if a >= 0 then a / b else -((-a) / b)
  }

  /** `key=value` as `%d` prints it. */
  function Field(key: string, v: int): string {
    key + "=" + IntToString(v)
  }

  /** `buildSubscriptionHeader(upload, download, total, expire)`: note that the `upload`
      slot prints the `download` argument and the other way round. */
  function SubscriptionHeader(upload: int, download: int, total: int, expire: int): string {
    JoinFields(Field("upload", download), Field("download", upload), Field("total", total), Field("expire", expire))
  }

  /** The `"%s; %s; %s; %s"` layout of the header. */
  function JoinFields(a: string, b: string, c: string, d: string): string {
    a + "; " + b + "; " + c + "; " + d
  }

  /** The four numbers a subscription client reads from the header. */
  datatype Usage = Usage(upload: int, download: int, total: int, expire: int)

  /** How a client reads one `key=value` field: the key must match, the rest is a number. */
  function ReadField(part: string, key: string): Option<int> {
    var prefix := key + "=";
    if |part| >= |prefix| && part[..|prefix|] == prefix then Atoi(part[|prefix|..]) else None
  }

  function DropSpace(p: string): string {
    if |p| > 0 && p[0] == ' ' then p[1..] else p
  }

  /** The reference reading of the header: four `;`-separated fields, in the order
      upload, download, total, expire, each after one optional space. */
  function ReadHeader(h: string): Option<Usage> {
    var parts := Split(h, ';');
    if |parts| != 4 then None
    else
      var u := ReadField(parts[0], "upload");
      var d := ReadField(DropSpace(parts[1]), "download");
      var t := ReadField(DropSpace(parts[2]), "total");
      var e := ReadField(DropSpace(parts[3]), "expire");
      if u.Some? && d.Some? && t.Some? && e.Some? then Some(Usage(u.value, d.value, t.value, e.value))
      else None
  }

  /** `buildHeaderValue(user, tunnelParam)`: "-1" selects the account's own counters; any
      other value must parse as a 64-bit id of one of the user's tunnel permissions. */
  function BuildHeaderValue(user: User, uts: seq<UserTunnel>, tunnelParam: string): (r: Result<string, string>)
    ensures r.Failure? ==> r.error == NoTunnel
  {
    if tunnelParam == "-1" then
      Success(SubscriptionHeader(user.outFlow, user.inFlow, Wrap64(user.flow * GigaBytes), GoQuot(user.expTime, 1000)))
    else
      match Atoi(tunnelParam)
      case None => Failure(NoTunnel)
      case Some(tunnelId) =>
        match FindUserTunnelById(uts, tunnelId)
        case None => Failure(NoTunnel)
        case Some(ut) =>
          if ut.userId != user.id then Failure(NoTunnel)
          else Success(SubscriptionHeader(ut.outFlow, ut.inFlow, Wrap64(ut.flow * GigaBytes), GoQuot(ut.expTime, 1000)))
  }

  lemma NoSemicolonInNumber(v: int)
    ensures ';' !in IntToString(v)
  {
    if v < 0 {
      DigitsHoldNo(NatToString(-v), ';');
    } else {
      DigitsHoldNo(NatToString(v), ';');
    }
  }

  lemma FieldReadsBack(key: string, v: int)
    requires InInt64(v)
    ensures ReadField(Field(key, v), key) == Some(v)
  {
    var f := Field(key, v);
    assert f[..|key + "="|] == key + "=";
    assert f[|key + "="|..] == IntToString(v);
    AtoiIntToString(v);
  }

  /** Four pieces free of `;`, joined by `;`, split back into the pieces. */
  /** The header layout is the fields joined by `;`, the last three after a space. */
  lemma JoinFieldsShape(a: string, b: string, c: string, d: string)
    ensures JoinFields(a, b, c, d) == a + [';'] + ((" " + b) + [';'] + ((" " + c) + [';'] + (" " + d)))
  {
  }

  /** Reading the layout reads each field. */
  lemma ReadJoined(a: string, b: string, c: string, d: string, u: Usage)
    requires ';' !in a && ';' !in " " + b && ';' !in " " + c && ';' !in " " + d
    requires ReadField(a, "upload") == Some(u.upload)
    requires ReadField(DropSpace(" " + b), "download") == Some(u.download)
    requires ReadField(DropSpace(" " + c), "total") == Some(u.total)
    requires ReadField(DropSpace(" " + d), "expire") == Some(u.expire)
    ensures ReadHeader(JoinFields(a, b, c, d)) == Some(u)
  {
    JoinFieldsShape(a, b, c, d);
    SplitFour(a, " " + b, " " + c, " " + d, ';');
  }

  /** One field after its separating space. */
  lemma SpacedField(key: string, v: int)
    requires InInt64(v) && ';' !in key
    ensures ';' !in " " + Field(key, v)
    ensures ReadField(DropSpace(" " + Field(key, v)), key) == Some(v)
  {
    NoSemicolonInNumber(v);
    assert DropSpace(" " + Field(key, v)) == Field(key, v);
    FieldReadsBack(key, v);
  }

  /** Each field of the header, with its separating space, is free of `;` and reads back. */
  lemma HeaderFields(upload: int, download: int, total: int, expire: int)
    requires InInt64(upload) && InInt64(download) && InInt64(total) && InInt64(expire)
    ensures FieldsReadBack(upload, download, total, expire)
  {
    NoSemicolonInNumber(download);
    FieldReadsBack("upload", download);
    SpacedField("download", upload);
    SpacedField("total", total);
    SpacedField("expire", expire);
  }

  /** The fields of the header read back as the arguments in their printed slots. */
  predicate FieldsReadBack(upload: int, download: int, total: int, expire: int) {
    ';' !in Field("upload", download) && ReadField(Field("upload", download), "upload") == Some(download) &&
    ';' !in " " + Field("download", upload) && ReadField(DropSpace(" " + Field("download", upload)), "download") == Some(upload) &&
    ';' !in " " + Field("total", total) && ReadField(DropSpace(" " + Field("total", total)), "total") == Some(total) &&
    ';' !in " " + Field("expire", expire) && ReadField(DropSpace(" " + Field("expire", expire)), "expire") == Some(expire)
  }

  lemma HeaderFromFields(upload: int, download: int, total: int, expire: int)
    requires FieldsReadBack(upload, download, total, expire)
    ensures ReadHeader(SubscriptionHeader(upload, download, total, expire)) == Some(Usage(download, upload, total, expire))
  {
    ReadJoined(Field("upload", download), Field("download", upload), Field("total", total), Field("expire", expire),
      Usage(download, upload, total, expire));
  }

  /** A client reading the header gets the first argument back as the download count and the
      second as the upload count; total and expiry in place. */
  lemma HeaderReadsBack(upload: int, download: int, total: int, expire: int)
    requires InInt64(upload) && InInt64(download) && InInt64(total) && InInt64(expire)
    ensures ReadHeader(SubscriptionHeader(upload, download, total, expire)) == Some(Usage(download, upload, total, expire))
  {
    HeaderFields(upload, download, total, expire);
    HeaderFromFields(upload, download, total, expire);
  }

  /** For "-1" the header reports the account's inbound traffic as upload and its outbound
      traffic as download, the quota in bytes and the expiry in seconds. */
  lemma AccountHeader(user: User, uts: seq<UserTunnel>)
    requires InInt64(user.inFlow) && InInt64(user.outFlow) && InInt64(user.expTime)
    ensures BuildHeaderValue(user, uts, "-1").Success?
    ensures ReadHeader(BuildHeaderValue(user, uts, "-1").value) ==
      Some(Usage(user.inFlow, user.outFlow, Wrap64(user.flow * GigaBytes), GoQuot(user.expTime, 1000)))
  {
    HeaderReadsBack(user.outFlow, user.inFlow, Wrap64(user.flow * GigaBytes), GoQuot(user.expTime, 1000));
  }

  /** Any other parameter yields a header exactly when it names a permission of this user,
      and that header carries the permission's counters. */
  lemma TunnelHeader(user: User, uts: seq<UserTunnel>, tunnelParam: string)
    requires tunnelParam != "-1"
    requires forall k :: 0 <= k < |uts| ==> InInt64(uts[k].inFlow) && InInt64(uts[k].outFlow) && InInt64(uts[k].expTime)
    ensures BuildHeaderValue(user, uts, tunnelParam).Success? <==>
      Atoi(tunnelParam).Some? && FindUserTunnelById(uts, Atoi(tunnelParam).value).Some? &&
      FindUserTunnelById(uts, Atoi(tunnelParam).value).value.userId == user.id
    ensures BuildHeaderValue(user, uts, tunnelParam).Success? ==>
      var ut := FindUserTunnelById(uts, Atoi(tunnelParam).value).value;
      ReadHeader(BuildHeaderValue(user, uts, tunnelParam).value) ==
        Some(Usage(ut.inFlow, ut.outFlow, Wrap64(ut.flow * GigaBytes), GoQuot(ut.expTime, 1000)))
  {
    if BuildHeaderValue(user, uts, tunnelParam).Success? {
      var ut := FindUserTunnelById(uts, Atoi(tunnelParam).value).value;
      HeaderReadsBack(ut.outFlow, ut.inFlow, Wrap64(ut.flow * GigaBytes), GoQuot(ut.expTime, 1000));
    }
  }
}
