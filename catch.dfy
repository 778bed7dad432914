/**
 * Stage 1, the catch receipt (src/catch.py): the species allow-list, the
 * fishery certification guards and the receipt they let through.
 */
module Catch {
  import opened Wrappers
  import opened Values
  import opened Core

  /** Scientific name to common name, for every species approved for fish oil. */
  const ApprovedSpecies: map<string, string> := map[
    "Engraulis ringens" := "Peruvian Anchoveta",
    "Sardina pilchardus" := "European Sardine",
    "Brevoortia tyrannus" := "Atlantic Menhaden",
    "Brevoortia patronus" := "Gulf Menhaden",
    "Clupea harengus" := "Atlantic Herring",
    "Scomber scombrus" := "Atlantic Mackerel",
    "Mallotus villosus" := "Capelin",
    "Salmo salar" := "Atlantic Salmon",
    "Oncorhynchus mykiss" := "Rainbow Trout",
    "Gadus morhua" := "Atlantic Cod",
    "Pollachius virens" := "Pollock",
    "Thunnus albacares" := "Yellowfin Tuna",
    "Katsuwonus pelamis" := "Skipjack Tuna",
    "Sprattus sprattus" := "European Sprat",
    "Micromesistius poutassou" := "Blue Whiting"
  ]

  /** The accepted fishery certification types; `"None"` means uncertified. */
  const FisheryCertTypes: set<string> := {"MSC", "FriendOfSea", "None"}

  /** `validate_species`. */
  predicate ValidateSpecies(species: string)
    ensures ValidateSpecies(species) ==> species in ApprovedSpecies && species != "" && ApprovedSpecies[species] != ""
  {
    species in ApprovedSpecies
  }

  /** The allow-list accepts the anchoveta and rejects a non-fish and the empty name. */
  lemma ValidateSpeciesExamples()
    ensures ValidateSpecies("Engraulis ringens")
    ensures !ValidateSpecies("Homo sapiens")
    ensures !ValidateSpecies("")
  {
    assert "Engraulis ringens" in ApprovedSpecies;
  }

  /** The guards of `create_catch_receipt`, in order; the first that fails names the error. */
  function CatchCheck(species: string, certType: string, certHash: Option<string>): (e: Option<StopRule>)
    ensures e.None? <==>
      && ValidateSpecies(species)
      && certType in FisheryCertTypes
      && (certType != "None" ==> Truthy(OptStr(certHash)))
    ensures !ValidateSpecies(species) ==> e == Some(UnapprovedSpecies(species))
    ensures ValidateSpecies(species) && certType !in FisheryCertTypes ==>
      e == Some(InvalidFisheryCertType(certType))
    ensures ValidateSpecies(species) && certType in FisheryCertTypes && e.Some? ==>
      e == Some(MissingFisheryCertHash(certType)) && certHash in {None, Some("")}
  {
    if !ValidateSpecies(species) then Some(UnapprovedSpecies(species))
    else if certType !in FisheryCertTypes then Some(InvalidFisheryCertType(certType))
    else if certType != "None" && !Truthy(OptStr(certHash)) then Some(MissingFisheryCertHash(certType))
    else None
  }

  /** The payload of an accepted catch. */
  function CatchPayload(species: string, fisheryRegistry: string, importDocsHash: string,
                        certType: string, certId: Option<string>, certHash: Option<string>): Dict
    requires ValidateSpecies(species)
  {
    [ Entry("species", Str(species)),
      Entry("species_common", Str(ApprovedSpecies[species])),
      Entry("fishery_approved", Bool(true)),
      Entry("fishery_registry", Str(fisheryRegistry)),
      Entry("import_docs_hash", Str(importDocsHash)),
      Entry("fishery_cert_type", Str(certType)),
      Entry("fishery_cert_id", OptStr(certId)),
      Entry("fishery_cert_hash", OptStr(certHash)) ]
  }

  /** `create_catch_receipt`: a failed guard writes nothing; otherwise exactly one
      catch receipt is appended. */
  method CreateCatchReceipt(ledger: Ledger, p: Primitives, species: string, fisheryRegistry: string,
                            importDocsHash: string, certType: string, certId: Option<string>,
                            certHash: Option<string>, tenant: Option<string>)
    returns (r: Result<Dict, StopRule>)
    modifies ledger
    ensures CatchCheck(species, certType, certHash).Some? ==>
      && r == Failure(CatchCheck(species, certType, certHash).value)
      && ledger.records == old(ledger.records)
    ensures CatchCheck(species, certType, certHash).None? ==>
      && r == Success(Envelope(p, "catch",
                               CatchPayload(species, fisheryRegistry, importDocsHash, certType, certId, certHash),
                               OptStr(tenant), ledger.clock(|old(ledger.records)|)))
      && ledger.records == old(ledger.records) + [r.value]
  {
    if !ValidateSpecies(species) {
      return Failure(UnapprovedSpecies(species));
    }
    if certType !in FisheryCertTypes {
      return Failure(InvalidFisheryCertType(certType));
    }
    if certType != "None" && !Truthy(OptStr(certHash)) {
      return Failure(MissingFisheryCertHash(certType));
    }
    var payload := CatchPayload(species, fisheryRegistry, importDocsHash, certType, certId, certHash);
    var receipt := ledger.Emit(p, "catch", payload, OptStr(tenant));
    return Success(receipt);
  }

  /** The keys of a catch payload, in order. */
  const CatchKeys: seq<string> := ["species", "species_common", "fishery_approved", "fishery_registry",
    "import_docs_hash", "fishery_cert_type", "fishery_cert_id", "fishery_cert_hash"]

  /** No key is listed twice, and none is one the envelope writes itself. */
  lemma CatchKeysUnique()
    ensures Unique(CatchKeys + ReservedKeys)
  {
  }

  /** The catch payload has the listed keys and none of the envelope's own. */
  lemma CatchPayloadKeys(species: string, fisheryRegistry: string, importDocsHash: string,
                         certType: string, certId: Option<string>, certHash: Option<string>)
    requires ValidateSpecies(species)
    ensures var d := CatchPayload(species, fisheryRegistry, importDocsHash, certType, certId, certHash);
      KeysAre(d, CatchKeys) && PlainPayload(d)
      && !HasKey(d, "batch_id")
  {
    var d := CatchPayload(species, fisheryRegistry, importDocsHash, certType, certId, certHash);
    assert KeysAre(d, CatchKeys);
    CatchKeysUnique();
    PlainByKeys(d, CatchKeys);
  }

  /** An accepted catch receipt records the common name, `fishery_approved = true`
      and the certification fields unchanged. */
  lemma CatchReceiptFields(p: Primitives, species: string, fisheryRegistry: string, importDocsHash: string,
                           certType: string, certId: Option<string>, certHash: Option<string>,
                           tenant: Value, ts: string)
    requires ValidateSpecies(species)
    ensures var e := Envelope(p, "catch",
                              CatchPayload(species, fisheryRegistry, importDocsHash, certType, certId, certHash),
                              tenant, ts);
      && Get(e, "receipt_type") == Some(Str("catch"))
      && Get(e, "species_common") == Some(Str(ApprovedSpecies[species]))
      && Get(e, "fishery_approved") == Some(Bool(true))
      && Get(e, "fishery_cert_type") == Some(Str(certType))
      && Get(e, "fishery_cert_id") == Some(OptStr(certId))
      && Get(e, "fishery_cert_hash") == Some(OptStr(certHash))
  {
    var d := CatchPayload(species, fisheryRegistry, importDocsHash, certType, certId, certHash);
    CatchPayloadKeys(species, fisheryRegistry, importDocsHash, certType, certId, certHash);
    EnvelopeType(p, "catch", d, tenant, ts);
    EnvelopeField(p, "catch", d, tenant, ts, 1);
    EnvelopeField(p, "catch", d, tenant, ts, 2);
    EnvelopeField(p, "catch", d, tenant, ts, 5);
    EnvelopeField(p, "catch", d, tenant, ts, 6);
    EnvelopeField(p, "catch", d, tenant, ts, 7);
  }

  /** A catch receipt carries no `batch_id`, so `link_to_catch` (which looks one up)
      never finds a receipt written by `create_catch_receipt`. */
  lemma CatchReceiptLacksBatchId(p: Primitives, species: string, fisheryRegistry: string, importDocsHash: string,
                                 certType: string, certId: Option<string>, certHash: Option<string>,
                                 tenant: Value, ts: string, batchId: string)
    requires ValidateSpecies(species)
    ensures var e := Envelope(p, "catch",
                              CatchPayload(species, fisheryRegistry, importDocsHash, certType, certId, certHash),
                              tenant, ts);
      !Matches(e, Query(Some("catch"), "batch_id", Str(batchId)))
  {
    var d := CatchPayload(species, fisheryRegistry, importDocsHash, certType, certId, certHash);
    CatchPayloadKeys(species, fisheryRegistry, importDocsHash, certType, certId, certHash);
    HeaderKeys("catch", ts, tenant);
    EnvelopeGet(p, "catch", d, tenant, ts, "batch_id");
  }
}
