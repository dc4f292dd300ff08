/**
 * cmd/objects/system-settings.go: the text table of the system settings, with the
 * base64-encoded credentials optionally shown decoded.  The table writer is reduced to
 * what ToTEXT gives it: a header, a footer and the rows in the order they are appended.
 * Go's map iteration order is an input.
 */
module SystemSettings {
  import opened Base64

  /** The settings whose values are stored base64 encoded. */
  predicate IsEncodedKey(k: string) {
    k == "POSTGRES_BACKUP_AZURE_ACCOUNT_NAME" || k == "POSTGRES_BACKUP_AZURE_ACCOUNT_KEY"
    || k == "POSTGRES_BACKUP_AWS_SECRET_ACCESS_KEY" || k == "POSTGRES_PASSWORD" || k == "POSTGRES_USER"
  }

  const Header: seq<string> := ["KEY", "VALUE"]
  const Footer: seq<string> := ["* denotes a field where values were base64 decoded", ""]

  /** string(data): each decoded byte as one character. */
  function BytesText(b: seq<byte>): (r: string)
    ensures |r| == |b| && forall i :: 0 <= i < |b| ==> r[i] as int == b[i]
  {
    seq(|b|, i requires 0 <= i < |b| => b[i] as char)
  }

  /** The row appended for one setting. */
  function Row(k: string, v: string, decode: bool): seq<string> {
    if decode && IsEncodedKey(k) && Decode(v).Some? then [k + " *", BytesText(Decode(v).value)]
    else [k, v]
  }

  /** The rows of the settings taken in the given order. */
  function Rows(data: map<string, string>, order: seq<string>, decode: bool): (r: seq<seq<string>>)
    requires forall i :: 0 <= i < |order| ==> order[i] in data
  {
    seq(|order|, i requires 0 <= i < |order| => Row(order[i], data[order[i]], decode))
  }

  /** The order a range over the map visits its keys in: each key once. */
  predicate Enumerates(order: seq<string>, data: map<string, string>) {
    (forall i :: 0 <= i < |order| ==> order[i] in data)
    && (forall k :: k in data ==> k in order)
    && (forall i, j :: 0 <= i < j < |order| ==> order[i] != order[j])
  }

  /** What the table writer is given. */
  class Table {
    var header: seq<string>
    var footer: seq<string>
    var rows: seq<seq<string>>

    constructor ()
      ensures header == [] && footer == [] && rows == []
    {
      header, footer, rows := [], [], [];
    }

    method SetHeader(h: seq<string>)
      modifies this
      ensures header == h && footer == old(footer) && rows == old(rows)
    {
      header := h;
    }

    method SetFooter(f: seq<string>)
      modifies this
      ensures footer == f && header == old(header) && rows == old(rows)
    {
      footer := f;
    }

    method Append(row: seq<string>)
      modifies this
      ensures rows == old(rows) + [row] && header == old(header) && footer == old(footer)
    {
      rows := rows + [row];
    }
  }

  /**
   * SystemSettings.ToTEXT: the header unless noHeaders, the footer exactly when
   * decoding, and one row per setting in iteration order.
   */
  method ToText(data: map<string, string>, order: seq<string>, noHeaders: bool, decode: bool)
    returns (table: Table)
    requires Enumerates(order, data)
    ensures fresh(table)
    ensures table.header == (if noHeaders then [] else Header)
    ensures table.footer == (if decode then Footer else [])
    ensures table.rows == Rows(data, order, decode)
  {
    table := new Table();
    if !noHeaders {
      table.SetHeader(Header);
    }
    if decode {
      table.SetFooter(Footer);
    }
    for i := 0 to |order|
      invariant table.header == (if noHeaders then [] else Header)
      invariant table.footer == (if decode then Footer else [])
      invariant table.rows == Rows(data, order[..i], decode)
    {
      var row := RowFor(order[i], data[order[i]], decode);
      table.Append(row);
      RowsStep(data, order, i, decode);
    }
    assert order[..|order|] == order;
  }

  /** The rows of one more setting are the earlier rows and that setting's row. */
  lemma RowsStep(data: map<string, string>, order: seq<string>, i: int, decode: bool)
    requires 0 <= i < |order| && forall j :: 0 <= j < |order| ==> order[j] in data
    ensures Rows(data, order[..i + 1], decode) == Rows(data, order[..i], decode) + [Row(order[i], data[order[i]], decode)]
  {
    var longer, shorter := Rows(data, order[..i + 1], decode), Rows(data, order[..i], decode);
    assert forall j :: 0 <= j < i ==> longer[j] == shorter[j];
  }

  /** The body of the range loop in ToTEXT for one setting. */
  method RowFor(k: string, v: string, decode: bool) returns (row: seq<string>)
    ensures row == Row(k, v, decode)
  {
    row := [k, v];
    if decode && IsEncodedKey(k) {
      var decoded := Decode(v);
      if decoded.Some? {
        row := [k + " *", BytesText(decoded.value)];
      }
    }
  }

  /** A sequence with no repeats has as many elements as its set. */
  lemma {:induction false} DistinctCard(order: seq<string>)
    requires forall i, j :: 0 <= i < j < |order| ==> order[i] != order[j]
    ensures |set k | k in order| == |order|
  {
    if |order| > 0 {
      var rest := order[1..];
      DistinctCard(rest);
      assert (set k | k in order) == (set k | k in rest) + {order[0]};
      assert order[0] !in rest;
    }
  }

  /** Exactly one row per setting. */
  lemma OneRowPerSetting(data: map<string, string>, order: seq<string>, decode: bool)
    requires Enumerates(order, data)
    ensures |Rows(data, order, decode)| == |data|
  {
    DistinctCard(order);
    assert (set k | k in order) == data.Keys;
  }

  /** Without decoding, every row is the setting's key and value as stored. */
  lemma PlainRows(data: map<string, string>, order: seq<string>)
    requires Enumerates(order, data)
    ensures forall i :: 0 <= i < |order| ==> Rows(data, order, false)[i] == [order[i], data[order[i]]]
  {
  }

  /** Settings outside the five credentials are never decoded. */
  lemma OtherKeysVerbatim(k: string, v: string, decode: bool)
    requires !IsEncodedKey(k)
    ensures Row(k, v, decode) == [k, v]
  {
  }

  /** A credential is marked with " *" exactly when decoding is on and its value decodes. */
  lemma MarkedIffDecoded(k: string, v: string, decode: bool)
    ensures Row(k, v, decode)[0] == k + " *" <==> decode && IsEncodedKey(k) && Decode(v).Some?
  {
    if !(decode && IsEncodedKey(k) && Decode(v).Some?) {
      assert |Row(k, v, decode)[0]| != |k + " *"|;
    }
  }

  /** A credential stored as the encoding of some bytes is shown as those bytes. */
  lemma EncodedCredentialShown(k: string, b: seq<byte>)
    requires IsEncodedKey(k)
    ensures Row(k, Encode(b), true) == [k + " *", BytesText(b)]
  {
    DecodeEncode(b);
  }

  /** A value that is not base64, such as one with no padding, is shown as stored. */
  lemma UnpaddedCredentialVerbatim(k: string, v: string)
    requires forall i :: 0 <= i < |v| ==> v[i] != '\r' && v[i] != '\n'
    requires |v| % 4 != 0
    ensures Row(k, v, true) == [k, v]
  {
    StripKeeps(v);
    DecodeNeedsGroupsContra(v);
  }
}
