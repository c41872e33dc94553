/** The address-book pages: phone numbers and e-mail addresses are masked
    for non-admin users, and the forms take comma-separated lists. */
module ContactsWeb {
  import opened Common
  import opened Groups

  /** `"*" * n` */
  function Stars(n: nat): (r: string)
    ensures |r| == n && forall i :: 0 <= i < n ==> r[i] == '*'
  {
    seq(n, _ => '*')
  }

  /** The positions of a phone number of length n that stay visible: all of
      a number of at most 2 characters; the first and the last of one of 3
      to 7; the first 3 and the last 4 of a longer one. */
  predicate PhoneShown(n: nat, i: nat) {
    if n <= 2 then true
    else if n <= 7 then i == 0 || i == n - 1
    else i < 3 || i >= n - 4
  }

  /** `mask_phone` */
  function MaskPhone(phone: string): (r: string)
    ensures |r| == |phone|
    ensures forall i :: 0 <= i < |phone| ==> r[i] == if PhoneShown(|phone|, i) then phone[i] else '*'
  {
    var n := |phone|;
    if n <= 7 then
      if n > 2 then phone[..1] + Stars(n - 2) + phone[n - 1..] else phone
    else phone[..3] + Stars(n - 7) + phone[n - 4..]
  }

  /** Masking a masked number changes nothing. */
  lemma MaskPhoneIdempotent(phone: string)
    ensures MaskPhone(MaskPhone(phone)) == MaskPhone(phone)
  {
  }

  /** The positions of a local part of length n that stay visible: none of
      one of at most 2 characters, else the first and the last. */
  predicate LocalShown(n: nat, i: nat) {
    n > 2 && (i == 0 || i == n - 1)
  }

  /** `mask_email`: split at the last "@"; the domain is kept and the local
      part starred. */
  function MaskEmail(email: string): (r: string)
    ensures '@' !in email ==> r == email
    ensures '@' in email ==>
      var at := LastIndexOf(email, '@').value;
      && |r| == |email| && r[at..] == email[at..]
      && forall i :: 0 <= i < at ==> r[i] == if LocalShown(at, i) then email[i] else '*'
  {
    match LastIndexOf(email, '@')
    case None => email
    case Some(at) =>
      var local := email[..at];
      var domain := email[at + 1..];
      var maskedLocal := if |local| <= 2 then Stars(|local|) else [local[0]] + Stars(|local| - 2) + [local[|local| - 1]];
      assert |maskedLocal| == at;
      assert forall i :: 0 <= i < at ==> maskedLocal[i] == if LocalShown(at, i) then email[i] else '*';
      var r := maskedLocal + "@" + domain;
      assert forall i :: 0 <= i < at ==> r[i] == maskedLocal[i];
      assert r[at..] == "@" + domain;
      assert email[at..] == "@" + domain;
      r
  }

  /** Masking a masked address changes nothing: the last "@" stays where it
      was. */
  lemma MaskEmailIdempotent(email: string)
    ensures MaskEmail(MaskEmail(email)) == MaskEmail(email)
  {
    if '@' in email {
      var at := LastIndexOf(email, '@').value;
      var m := MaskEmail(email);
      assert m[at] == '@';
      assert m[at + 1..] == email[at + 1..];
      assert LastIndexOf(m, '@') == Some(at) by {
        assert '@' in m;
      }
    }
  }

  // ------------------------------------------------------------- forms

  /** Stripping only removes characters. */
  lemma StripKeepsOut(s: string, c: char)
    requires c !in s
    ensures c !in Strip(s)
  {
    var t := TrimStart(s);
    var r := TrimEnd(t);
    assert r == Strip(s);
    assert forall k :: 0 <= k < |r| ==> r[k] == t[k] == s[|s| - |t| + k];
  }

  /** `[p.strip() for p in parts if p.strip()]` */
  function NonEmptyStripped(parts: seq<string>): (r: seq<string>)
    ensures |r| <= |parts|
    ensures forall i :: 0 <= i < |r| ==> r[i] != []
    ensures (forall i :: 0 <= i < |parts| ==> ',' !in parts[i]) ==> forall i :: 0 <= i < |r| ==> ',' !in r[i]
  {
    if parts == [] then []
    else
      var last := parts[|parts| - 1];
      var p := Strip(last);
      var init := parts[..|parts| - 1];
      assert (forall i :: 0 <= i < |parts| ==> ',' !in parts[i]) ==> (forall i :: 0 <= i < |init| ==> ',' !in init[i]) && ',' !in p by {
        if forall i :: 0 <= i < |parts| ==> ',' !in parts[i] {
          assert forall i :: 0 <= i < |init| ==> init[i] == parts[i];
          StripKeepsOut(last, ',');
        }
      }
      NonEmptyStripped(init) + (if p != [] then [p] else [])
  }

  /** Every entry kept is already stripped. */
  lemma {:induction false} NonEmptyStrippedAreStripped(parts: seq<string>)
    ensures forall i :: 0 <= i < |NonEmptyStripped(parts)| ==> Strip(NonEmptyStripped(parts)[i]) == NonEmptyStripped(parts)[i]
  {
    if parts != [] {
      var last := parts[|parts| - 1];
      NonEmptyStrippedAreStripped(parts[..|parts| - 1]);
      StripIdempotent(last);
    }
  }

  /** The entries are read piece by piece: the result distributes over
      concatenation, and one piece gives its stripped text unless that is
      empty (NonEmptyStrippedOne). So the list holds every non-blank piece,
      stripped, in order. */
  lemma {:induction false} NonEmptyStrippedAppend(a: seq<string>, b: seq<string>)
    ensures NonEmptyStripped(a + b) == NonEmptyStripped(a) + NonEmptyStripped(b)
    decreases |b|
  {
    if b != [] {
      var init := b[..|b| - 1];
      var x := b[|b| - 1];
      var opt := if Strip(x) != [] then [Strip(x)] else [];
      NonEmptyStrippedAppend(a, init);
      SplitLast(a, b);
      assert NonEmptyStripped(a + b) == NonEmptyStripped(a + init) + opt;
      assert NonEmptyStripped(b) == NonEmptyStripped(init) + opt;
      Associative(NonEmptyStripped(a), NonEmptyStripped(init), opt);
    } else {
      assert a + b == a;
    }
  }

  lemma NonEmptyStrippedOne(x: string)
    ensures NonEmptyStripped([x]) == if Strip(x) != [] then [Strip(x)] else []
  {
    assert [x][..0] == [];
  }

  /** A comma-separated form field as a list: its stripped, non-empty
      entries. The pieces are the text between commas (Common.JoinSplit) and
      NonEmptyStrippedAppend says they are kept in order. */
  function CommaList(s: string): (r: seq<string>)
    ensures forall i :: 0 <= i < |r| ==> r[i] != [] && ',' !in r[i] && Strip(r[i]) == r[i]
    ensures |r| <= |Split(s, ',')|
    ensures ',' !in s ==> r == if Strip(s) != [] then [Strip(s)] else []
  {
    NonEmptyStrippedAreStripped(Split(s, ','));
    NonEmptyStripped(Split(s, ','))
  }

  lemma FirstComma(a: string, rest: string)
    requires ',' !in a
    ensures IndexOf(a + "," + rest, ',') == Some(|a|)
  {
    var s := a + "," + rest;
    assert s[|a|] == ',';
    var at := IndexOf(s, ',').value;
    assert s[..at] == a[..at] || at >= |a|;
  }

  /** Splitting a comma-joined list of comma-free entries gives them back. */
  lemma {:induction false} SplitJoin(xs: seq<string>)
    requires xs != []
    requires forall i :: 0 <= i < |xs| ==> ',' !in xs[i]
    ensures Split(Join(",", xs), ',') == xs
  {
    if |xs| > 1 {
      var rest := Join(",", xs[1..]);
      var s := xs[0] + "," + rest;
      assert Join(",", xs) == s;
      FirstComma(xs[0], rest);
      assert s[..|xs[0]|] == xs[0];
      assert s[|xs[0]| + 1..] == rest;
      assert forall i :: 0 <= i < |xs[1..]| ==> xs[1..][i] == xs[i + 1];
      SplitJoin(xs[1..]);
      assert xs == [xs[0]] + xs[1..];
    }
  }

  /** A list entered as its entries joined by commas is read back as the
      same list, when every entry is already stripped and non-empty. */
  lemma CommaListRoundTrip(xs: seq<string>)
    requires forall i :: 0 <= i < |xs| ==> xs[i] != [] && ',' !in xs[i] && Strip(xs[i]) == xs[i]
    ensures CommaList(Join(",", xs)) == xs
  {
    if xs == [] {
      assert Split("", ',') == [""];
    } else {
      SplitJoin(xs);
      assert forall e :: e in xs ==> e != [] && Strip(e) == e;
      KeepsStrippedEntries(xs);
    }
  }

  lemma NonEmptyStrippedSnoc(parts: seq<string>)
    requires parts != []
    requires parts[|parts| - 1] != [] && Strip(parts[|parts| - 1]) == parts[|parts| - 1]
    ensures NonEmptyStripped(parts) == NonEmptyStripped(parts[..|parts| - 1]) + [parts[|parts| - 1]]
  {
  }

  lemma {:induction false} KeepsStrippedEntries(xs: seq<string>)
    requires forall e :: e in xs ==> e != [] && Strip(e) == e
    ensures NonEmptyStripped(xs) == xs
  {
    if xs != [] {
      var init := xs[..|xs| - 1];
      var last := xs[|xs| - 1];
      assert xs == init + [last];
      assert last in xs;
      assert forall e :: e in init ==> e in xs;
      KeepsStrippedEntries(init);
      NonEmptyStrippedSnoc(xs);
    }
  }

  /** The contact a create form makes; its id is the store's choice. */
  function ContactFromForm(id: string, name: string, phones: string, emails: string, feishuWebhookUrl: string, note: string)
    : (c: Contact)
    ensures c.id == id && c.name == name && c.phones == CommaList(phones) && c.emails == CommaList(emails)
  {
    Contact(id, name, CommaList(phones), CommaList(emails), feishuWebhookUrl, note)
  }

  /** `update_contact`: an unknown id changes nothing; otherwise the
      contact's fields are replaced and its id kept. */
  function UpdateContact(store: map<string, Contact>, id: string, name: string, phones: string, emails: string,
                         feishuWebhookUrl: string, note: string): (r: map<string, Contact>)
    ensures id !in store ==> r == store
    ensures id in store ==> r == store[id := ContactFromForm(store[id].id, name, phones, emails, feishuWebhookUrl, note)]
    ensures r.Keys == store.Keys
  {
    if id !in store then store
    else store[id := ContactFromForm(store[id].id, name, phones, emails, feishuWebhookUrl, note)]
  }

  // ----------------------------------------------------------- display

  datatype ContactView = ContactView(id: string, name: string, feishuWebhookUrl: string, note: string,
                                     phones: seq<string>, emails: seq<string>)

  /** `mask_contact_for_display`: an admin sees the raw phones and e-mails,
      anyone else the masked ones, one for one. */
  function ContactForDisplay(c: Contact, isAdmin: bool): (v: ContactView)
    ensures v.id == c.id && v.name == c.name && v.feishuWebhookUrl == c.feishuWebhookUrl && v.note == c.note
    ensures isAdmin ==> v.phones == c.phones && v.emails == c.emails
    ensures !isAdmin ==>
      && |v.phones| == |c.phones| && (forall i :: 0 <= i < |c.phones| ==> v.phones[i] == MaskPhone(c.phones[i]))
      && |v.emails| == |c.emails| && (forall i :: 0 <= i < |c.emails| ==> v.emails[i] == MaskEmail(c.emails[i]))
  {
    ContactView(c.id, c.name, c.feishuWebhookUrl, c.note,
                if isAdmin then c.phones else seq(|c.phones|, i requires 0 <= i < |c.phones| => MaskPhone(c.phones[i])),
                if isAdmin then c.emails else seq(|c.emails|, i requires 0 <= i < |c.emails| => MaskEmail(c.emails[i])))
  }

  /** A non-admin sees no character of a phone number beyond the visible
      positions, and each masked entry is as long as the real one. */
  lemma NonAdminSeesOnlyShownDigits(c: Contact, i: nat, k: nat)
    requires i < |c.phones| && k < |c.phones[i]| && !PhoneShown(|c.phones[i]|, k)
    ensures |ContactForDisplay(c, false).phones[i]| == |c.phones[i]|
    ensures ContactForDisplay(c, false).phones[i][k] == '*'
  {
  }
}
