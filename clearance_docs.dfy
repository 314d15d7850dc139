/**
 * The clearance agent's documentation page
 * (frontend/src/pages/dashboards/clearanceAgents/DocumentationDashboard.jsx):
 * eight built-in certificates and bills, a renderer that trims the key
 * inside the braces, the form state, and `send`, which posts the rendered
 * document (or only the values) to `/api/templates/send` and falls back on
 * the mail client.
 */
module ClearanceDocs {
  import opened Wrappers
  import opened JsStrings
  import opened Placeholders
  import opened DocTemplates
  import Html

  // The built-in bodies and fields, template by template.

  const FumigationText0Part0: Plain := "<h2>Fumigation "
  const FumigationText0Part1: Plain := "Certificate</h2>\n<p>Date: "
  const FumigationText0: Plain :=
    FumigationText0Part0 +
    FumigationText0Part1
  const FumigationText1: Plain := "</p>\n<p>Certificate No: <strong>"
  const FumigationText2: Plain := "</strong></p>\n<p>Consignor: "
  const FumigationText3: Plain := "</p>\n<p>Consignee: "
  const FumigationText4: Plain := "</p>\n<p>Vessel / Flight: "
  const FumigationText5: Plain := " \U{2022} Voyage/Flight: "
  const FumigationText6Part0: Plain := "</p>\n<p>Packages / Description: "
  const FumigationText6Part1: Plain := "<pre style=\"white-space:pre-wrap;\">"
  const FumigationText6: Plain :=
    FumigationText6Part0 +
    FumigationText6Part1
  const FumigationText7: Plain := "</pre></p>\n<p>Gross Weight: "
  const FumigationText8: Plain := "</p>\n<p>Fumigant: "
  const FumigationText9: Plain := " \U{2014} Treatment Date: "
  const FumigationText10: Plain := "</p>\n<p>Issued By: "
  const FumigationText11Part0: Plain := "</p>\n<p>Declaration: This is to "
  const FumigationText11Part1: Plain := "certify that the above consignment "
  const FumigationText11Part2: Plain := "has been fumigated in accordance "
  const FumigationText11Part3: Plain := "with the relevant phytosanitary "
  const FumigationText11Part4: Plain := "requirements.</p>"
  const FumigationText11: Plain :=
    FumigationText11Part0 +
    FumigationText11Part1 +
    FumigationText11Part2 +
    FumigationText11Part3 +
    FumigationText11Part4
  const FumigationGaps0: seq<Gap> := [
    Gap("date", FumigationText1),
    Gap("certificateNo", FumigationText2),
    Gap("consignor", FumigationText3),
    Gap("consignee", FumigationText4)]
  const FumigationGaps1: seq<Gap> := [
    Gap("vessel", FumigationText5),
    Gap("voyage", FumigationText6),
    Gap("packages", FumigationText7),
    Gap("grossWeight", FumigationText8)]
  const FumigationGaps2: seq<Gap> := [
    Gap("fumigant", FumigationText9),
    Gap("treatmentDate", FumigationText10),
    Gap("issuer", FumigationText11)]
  const Fumigation: Body := Body(FumigationText0, FumigationGaps0 + FumigationGaps1 + FumigationGaps2)

  const FumigationFields: seq<FieldSpec> := [
    FieldSpec("date", "date"),
    FieldSpec("consignor", "text"),
    FieldSpec("consignee", "text"),
    FieldSpec("vessel", "text"),
    FieldSpec("voyage", "text"),
    FieldSpec("packages", "textarea"),
    FieldSpec("grossWeight", "text"),
    FieldSpec("fumigant", "text"),
    FieldSpec("treatmentDate", "date"),
    FieldSpec("certificateNo", "text"),
    FieldSpec("issuer", "text")]

  const ApedaSpiceBoardText0Part0: Plain := "<h2>APEDA / Spice Board "
  const ApedaSpiceBoardText0Part1: Plain := "Certificate</h2>\n<p>Date: "
  const ApedaSpiceBoardText0: Plain :=
    ApedaSpiceBoardText0Part0 +
    ApedaSpiceBoardText0Part1
  const ApedaSpiceBoardText1: Plain := "</p>\n<p>Certificate No: <strong>"
  const ApedaSpiceBoardText2: Plain := "</strong></p>\n<p>Exporter: "
  const ApedaSpiceBoardText3: Plain := "</p>\n<p>Consignee: "
  const ApedaSpiceBoardText4: Plain := "</p>\n<p>Product: "
  const ApedaSpiceBoardText5: Plain := " (HS: "
  const ApedaSpiceBoardText6: Plain := ")</p>\n<p>Quantity: "
  const ApedaSpiceBoardText7: Plain := " \U{2022} Net Weight: "
  const ApedaSpiceBoardText8: Plain := "</p>\n<p>Lot / Batch: "
  const ApedaSpiceBoardText9: Plain := "</p>\n<p>Authority: "
  const ApedaSpiceBoardText10Part0: Plain := "</p>\n<p>Declaration: This "
  const ApedaSpiceBoardText10Part1: Plain := "certificate is issued under the "
  const ApedaSpiceBoardText10Part2: Plain := "authority of the relevant board and "
  const ApedaSpiceBoardText10Part3: Plain := "confirms that the consignment "
  const ApedaSpiceBoardText10Part4: Plain := "complies with applicable "
  const ApedaSpiceBoardText10Part5: Plain := "standards.</p>"
  const ApedaSpiceBoardText10: Plain :=
    ApedaSpiceBoardText10Part0 +
    ApedaSpiceBoardText10Part1 +
    ApedaSpiceBoardText10Part2 +
    ApedaSpiceBoardText10Part3 +
    ApedaSpiceBoardText10Part4 +
    ApedaSpiceBoardText10Part5
  const ApedaSpiceBoardGaps0: seq<Gap> := [
    Gap("date", ApedaSpiceBoardText1),
    Gap("certificateNo", ApedaSpiceBoardText2),
    Gap("exporter", ApedaSpiceBoardText3),
    Gap("consignee", ApedaSpiceBoardText4)]
  const ApedaSpiceBoardGaps1: seq<Gap> := [
    Gap("product", ApedaSpiceBoardText5),
    Gap("hsCode", ApedaSpiceBoardText6),
    Gap("quantity", ApedaSpiceBoardText7),
    Gap("netWeight", ApedaSpiceBoardText8)]
  const ApedaSpiceBoardGaps2: seq<Gap> := [
    Gap("lot", ApedaSpiceBoardText9),
    Gap("authority", ApedaSpiceBoardText10)]
  const ApedaSpiceBoard: Body := Body(ApedaSpiceBoardText0, ApedaSpiceBoardGaps0 + ApedaSpiceBoardGaps1 + ApedaSpiceBoardGaps2)

  const ApedaSpiceBoardFields: seq<FieldSpec> := [
    FieldSpec("date", "date"),
    FieldSpec("exporter", "text"),
    FieldSpec("consignee", "text"),
    FieldSpec("product", "text"),
    FieldSpec("hsCode", "text"),
    FieldSpec("quantity", "text"),
    FieldSpec("netWeight", "text"),
    FieldSpec("lot", "text"),
    FieldSpec("certificateNo", "text"),
    FieldSpec("authority", "text")]

  const DraftBillOfLadingText0Part0: Plain := "<h2>Draft Bill of "
  const DraftBillOfLadingText0Part1: Plain := "Lading</h2>\n<p>Date: "
  const DraftBillOfLadingText0: Plain :=
    DraftBillOfLadingText0Part0 +
    DraftBillOfLadingText0Part1
  const DraftBillOfLadingText1: Plain := "</p>\n<p>Shipper: "
  const DraftBillOfLadingText2: Plain := "</p>\n<p>Consignee: "
  const DraftBillOfLadingText3: Plain := "</p>\n<p>Notify Party: "
  const DraftBillOfLadingText4: Plain := "</p>\n<p>Vessel / Voyage: "
  const DraftBillOfLadingText5: Plain := " / "
  const DraftBillOfLadingText6: Plain := "</p>\n<p>Port of Loading: "
  const DraftBillOfLadingText7: Plain := " \U{2022} Port of Discharge: "
  const DraftBillOfLadingText8Part0: Plain := "</p>\n<p>Marks & Nos: <pre "
  const DraftBillOfLadingText8Part1: Plain := "style=\"white-space:pre-wrap;\">"
  const DraftBillOfLadingText8: Plain :=
    DraftBillOfLadingText8Part0 +
    DraftBillOfLadingText8Part1
  const DraftBillOfLadingText9Part0: Plain := "</pre></p>\n<p>Description of Goods: "
  const DraftBillOfLadingText9Part1: Plain := "<pre style=\"white-space:pre-wrap;\">"
  const DraftBillOfLadingText9: Plain :=
    DraftBillOfLadingText9Part0 +
    DraftBillOfLadingText9Part1
  const DraftBillOfLadingText10: Plain := "</pre></p>\n<p>Container Nos: "
  const DraftBillOfLadingText11: Plain := "</p>\n<p>Gross Weight: "
  const DraftBillOfLadingText12: Plain := "</p>\n<p>Shipper Ref: "
  const DraftBillOfLadingText13: Plain := "</p>"
  const DraftBillOfLadingGaps0: seq<Gap> := [
    Gap("date", DraftBillOfLadingText1),
    Gap("shipper", DraftBillOfLadingText2),
    Gap("consignee", DraftBillOfLadingText3)]
  const DraftBillOfLadingGaps1: seq<Gap> := [
    Gap("notifyParty", DraftBillOfLadingText4),
    Gap("vessel", DraftBillOfLadingText5),
    Gap("voyage", DraftBillOfLadingText6)]
  const DraftBillOfLadingGaps2: seq<Gap> := [
    Gap("portLoading", DraftBillOfLadingText7),
    Gap("portDischarge", DraftBillOfLadingText8),
    Gap("marks", DraftBillOfLadingText9)]
  const DraftBillOfLadingGaps3: seq<Gap> := [
    Gap("descriptionGoods", DraftBillOfLadingText10),
    Gap("containers", DraftBillOfLadingText11),
    Gap("grossWeight", DraftBillOfLadingText12)]
  const DraftBillOfLadingGaps4: seq<Gap> := [
    Gap("shipperRef", DraftBillOfLadingText13)]
  const DraftBillOfLading: Body := Body(DraftBillOfLadingText0, DraftBillOfLadingGaps0 + DraftBillOfLadingGaps1 + DraftBillOfLadingGaps2 + DraftBillOfLadingGaps3 + DraftBillOfLadingGaps4)

  const DraftBillOfLadingFields: seq<FieldSpec> := [
    FieldSpec("date", "date"),
    FieldSpec("shipper", "text"),
    FieldSpec("consignee", "text"),
    FieldSpec("notifyParty", "text"),
    FieldSpec("vessel", "text"),
    FieldSpec("voyage", "text"),
    FieldSpec("portLoading", "text"),
    FieldSpec("portDischarge", "text"),
    FieldSpec("marks", "textarea"),
    FieldSpec("descriptionGoods", "textarea"),
    FieldSpec("containers", "text"),
    FieldSpec("grossWeight", "text"),
    FieldSpec("shipperRef", "text")]

  const DraftCertificateOfOriginText0Part0: Plain := "<h2>Draft Certificate of "
  const DraftCertificateOfOriginText0Part1: Plain := "Origin</h2>\n<p>Date: "
  const DraftCertificateOfOriginText0: Plain :=
    DraftCertificateOfOriginText0Part0 +
    DraftCertificateOfOriginText0Part1
  const DraftCertificateOfOriginText1: Plain := "</p>\n<p>Exporter: "
  const DraftCertificateOfOriginText2: Plain := "</p>\n<p>Consignee: "
  const DraftCertificateOfOriginText3: Plain := "</p>\n<p>Product: "
  const DraftCertificateOfOriginText4: Plain := " (HS: "
  const DraftCertificateOfOriginText5: Plain := ")</p>\n<p>Quantity: "
  const DraftCertificateOfOriginText6: Plain := " \U{2022} Invoice: "
  const DraftCertificateOfOriginText7: Plain := "</p>\n<p>Country of Origin: "
  const DraftCertificateOfOriginText8Part0: Plain := "</p>\n<p>Declaration: I hereby "
  const DraftCertificateOfOriginText8Part1: Plain := "certify that the goods described "
  const DraftCertificateOfOriginText8Part2: Plain := "above originate in "
  const DraftCertificateOfOriginText8: Plain :=
    DraftCertificateOfOriginText8Part0 +
    DraftCertificateOfOriginText8Part1 +
    DraftCertificateOfOriginText8Part2
  const DraftCertificateOfOriginText9: Plain := ".</p>\n<p>Declared By: "
  const DraftCertificateOfOriginText10: Plain := "</p>"
  const DraftCertificateOfOriginGaps0: seq<Gap> := [
    Gap("date", DraftCertificateOfOriginText1),
    Gap("exporter", DraftCertificateOfOriginText2),
    Gap("consignee", DraftCertificateOfOriginText3),
    Gap("product", DraftCertificateOfOriginText4)]
  const DraftCertificateOfOriginGaps1: seq<Gap> := [
    Gap("hsCode", DraftCertificateOfOriginText5),
    Gap("quantity", DraftCertificateOfOriginText6),
    Gap("invoiceNo", DraftCertificateOfOriginText7),
    Gap("countryOrigin", DraftCertificateOfOriginText8)]
  const DraftCertificateOfOriginGaps2: seq<Gap> := [
    Gap("countryOrigin", DraftCertificateOfOriginText9),
    Gap("declarationBy", DraftCertificateOfOriginText10)]
  const DraftCertificateOfOrigin: Body := Body(DraftCertificateOfOriginText0, DraftCertificateOfOriginGaps0 + DraftCertificateOfOriginGaps1 + DraftCertificateOfOriginGaps2)

  const DraftCertificateOfOriginFields: seq<FieldSpec> := [
    FieldSpec("date", "date"),
    FieldSpec("exporter", "text"),
    FieldSpec("consignee", "text"),
    FieldSpec("countryOrigin", "text"),
    FieldSpec("product", "text"),
    FieldSpec("hsCode", "text"),
    FieldSpec("quantity", "text"),
    FieldSpec("invoiceNo", "text"),
    FieldSpec("declarationBy", "text")]

  const DraftShippingBillText0Part0: Plain := "<h2>Draft Shipping "
  const DraftShippingBillText0Part1: Plain := "Bill</h2>\n<p>Date: "
  const DraftShippingBillText0: Plain :=
    DraftShippingBillText0Part0 +
    DraftShippingBillText0Part1
  const DraftShippingBillText1: Plain := "</p>\n<p>Exporter: "
  const DraftShippingBillText2: Plain := "</p>\n<p>Beneficiary: "
  const DraftShippingBillText3: Plain := "</p>\n<p>Invoice No: "
  const DraftShippingBillText4: Plain := " \U{2022} Shipper Ref: "
  const DraftShippingBillText5: Plain := "</p>\n<p>Port of Loading: "
  const DraftShippingBillText6: Plain := " \U{2022} Destination: "
  const DraftShippingBillText7Part0: Plain := "</p>\n<p>Items / HS / Qty: <pre "
  const DraftShippingBillText7Part1: Plain := "style=\"white-space:pre-wrap;\">"
  const DraftShippingBillText7: Plain :=
    DraftShippingBillText7Part0 +
    DraftShippingBillText7Part1
  const DraftShippingBillText8: Plain := "</pre></p>\n<p>Gross Weight: "
  const DraftShippingBillText9: Plain := "</p>\n<p>Freight: "
  const DraftShippingBillText10: Plain := "</p>"
  const DraftShippingBillGaps0: seq<Gap> := [
    Gap("date", DraftShippingBillText1),
    Gap("exporter", DraftShippingBillText2),
    Gap("beneficiary", DraftShippingBillText3)]
  const DraftShippingBillGaps1: seq<Gap> := [
    Gap("invoiceNo", DraftShippingBillText4),
    Gap("shipperRef", DraftShippingBillText5),
    Gap("portOfLoading", DraftShippingBillText6)]
  const DraftShippingBillGaps2: seq<Gap> := [
    Gap("portOfDestination", DraftShippingBillText7),
    Gap("itemDetails", DraftShippingBillText8),
    Gap("grossWeight", DraftShippingBillText9)]
  const DraftShippingBillGaps3: seq<Gap> := [
    Gap("freight", DraftShippingBillText10)]
  const DraftShippingBill: Body := Body(DraftShippingBillText0, DraftShippingBillGaps0 + DraftShippingBillGaps1 + DraftShippingBillGaps2 + DraftShippingBillGaps3)

  const DraftShippingBillFields: seq<FieldSpec> := [
    FieldSpec("date", "date"),
    FieldSpec("exporter", "text"),
    FieldSpec("beneficiary", "text"),
    FieldSpec("invoiceNo", "text"),
    FieldSpec("shipperRef", "text"),
    FieldSpec("portOfLoading", "text"),
    FieldSpec("portOfDestination", "text"),
    FieldSpec("itemDetails", "textarea"),
    FieldSpec("grossWeight", "text"),
    FieldSpec("freight", "text")]

  const OriginalShippingBillText0Part0: Plain := "<h2>Original Shipping "
  const OriginalShippingBillText0Part1: Plain := "Bill</h2>\n<p>Date: "
  const OriginalShippingBillText0: Plain :=
    OriginalShippingBillText0Part0 +
    OriginalShippingBillText0Part1
  const OriginalShippingBillText1: Plain := "</p>\n<p>Shipping Bill No: "
  const OriginalShippingBillText2: Plain := "</p>\n<p>Exporter: "
  const OriginalShippingBillText3: Plain := "</p>\n<p>Consignee: "
  const OriginalShippingBillText4: Plain := "</p>\n<p>Invoice: "
  const OriginalShippingBillText5Part0: Plain := "</p>\n<p>HS & Item Details: <pre "
  const OriginalShippingBillText5Part1: Plain := "style=\"white-space:pre-wrap;\">"
  const OriginalShippingBillText5: Plain :=
    OriginalShippingBillText5Part0 +
    OriginalShippingBillText5Part1
  const OriginalShippingBillText6: Plain := "</pre></p>\n<p>Packages: "
  const OriginalShippingBillText7: Plain := " \U{2022} Net Weight: "
  const OriginalShippingBillText8Part0: Plain := "</p>\n<p>Declaration / Remarks: <pre "
  const OriginalShippingBillText8Part1: Plain := "style=\"white-space:pre-wrap;\">"
  const OriginalShippingBillText8: Plain :=
    OriginalShippingBillText8Part0 +
    OriginalShippingBillText8Part1
  const OriginalShippingBillText9: Plain := "</pre></p>"
  const OriginalShippingBillGaps0: seq<Gap> := [
    Gap("date", OriginalShippingBillText1),
    Gap("shippingBillNo", OriginalShippingBillText2),
    Gap("exporter", OriginalShippingBillText3),
    Gap("consignee", OriginalShippingBillText4)]
  const OriginalShippingBillGaps1: seq<Gap> := [
    Gap("invoiceNo", OriginalShippingBillText5),
    Gap("hsDetails", OriginalShippingBillText6),
    Gap("packages", OriginalShippingBillText7),
    Gap("netWeight", OriginalShippingBillText8)]
  const OriginalShippingBillGaps2: seq<Gap> := [
    Gap("declaration", OriginalShippingBillText9)]
  const OriginalShippingBill: Body := Body(OriginalShippingBillText0, OriginalShippingBillGaps0 + OriginalShippingBillGaps1 + OriginalShippingBillGaps2)

  const OriginalShippingBillFields: seq<FieldSpec> := [
    FieldSpec("date", "date"),
    FieldSpec("exporter", "text"),
    FieldSpec("consignee", "text"),
    FieldSpec("shippingBillNo", "text"),
    FieldSpec("invoiceNo", "text"),
    FieldSpec("hsDetails", "textarea"),
    FieldSpec("packages", "text"),
    FieldSpec("netWeight", "text"),
    FieldSpec("declaration", "textarea")]

  const OriginalBillOfLadingText0Part0: Plain := "<h2>Original Bill of "
  const OriginalBillOfLadingText0Part1: Plain := "Lading</h2>\n<p>Date: "
  const OriginalBillOfLadingText0: Plain :=
    OriginalBillOfLadingText0Part0 +
    OriginalBillOfLadingText0Part1
  const OriginalBillOfLadingText1: Plain := "</p>\n<p>B/L Number: "
  const OriginalBillOfLadingText2: Plain := "</p>\n<p>Shipper: "
  const OriginalBillOfLadingText3: Plain := "</p>\n<p>Consignee: "
  const OriginalBillOfLadingText4: Plain := "</p>\n<p>Notify Party: "
  const OriginalBillOfLadingText5: Plain := "</p>\n<p>Vessel / Voyage: "
  const OriginalBillOfLadingText6: Plain := " / "
  const OriginalBillOfLadingText7: Plain := "</p>\n<p>Container Nos: "
  const OriginalBillOfLadingText8Part0: Plain := "</p>\n<p>Description of Goods: <pre "
  const OriginalBillOfLadingText8Part1: Plain := "style=\"white-space:pre-wrap;\">"
  const OriginalBillOfLadingText8: Plain :=
    OriginalBillOfLadingText8Part0 +
    OriginalBillOfLadingText8Part1
  const OriginalBillOfLadingText9: Plain := "</pre></p>\n<p>Gross Weight: "
  const OriginalBillOfLadingText10: Plain := "</p>\n<p>Place of Issue: "
  const OriginalBillOfLadingText11: Plain := "</p>\n<p>Carrier / Agent: "
  const OriginalBillOfLadingText12: Plain := "</p>"
  const OriginalBillOfLadingGaps0: seq<Gap> := [
    Gap("date", OriginalBillOfLadingText1),
    Gap("blNumber", OriginalBillOfLadingText2),
    Gap("shipper", OriginalBillOfLadingText3)]
  const OriginalBillOfLadingGaps1: seq<Gap> := [
    Gap("consignee", OriginalBillOfLadingText4),
    Gap("notifyParty", OriginalBillOfLadingText5),
    Gap("vessel", OriginalBillOfLadingText6)]
  const OriginalBillOfLadingGaps2: seq<Gap> := [
    Gap("voyage", OriginalBillOfLadingText7),
    Gap("containerNos", OriginalBillOfLadingText8),
    Gap("descriptionGoods", OriginalBillOfLadingText9)]
  const OriginalBillOfLadingGaps3: seq<Gap> := [
    Gap("grossWeight", OriginalBillOfLadingText10),
    Gap("placeOfIssue", OriginalBillOfLadingText11),
    Gap("carrierSign", OriginalBillOfLadingText12)]
  const OriginalBillOfLading: Body := Body(OriginalBillOfLadingText0, OriginalBillOfLadingGaps0 + OriginalBillOfLadingGaps1 + OriginalBillOfLadingGaps2 + OriginalBillOfLadingGaps3)

  const OriginalBillOfLadingFields: seq<FieldSpec> := [
    FieldSpec("date", "date"),
    FieldSpec("shipper", "text"),
    FieldSpec("consignee", "text"),
    FieldSpec("notifyParty", "text"),
    FieldSpec("blNumber", "text"),
    FieldSpec("vessel", "text"),
    FieldSpec("voyage", "text"),
    FieldSpec("containerNos", "text"),
    FieldSpec("descriptionGoods", "textarea"),
    FieldSpec("grossWeight", "text"),
    FieldSpec("placeOfIssue", "text"),
    FieldSpec("carrierSign", "text")]

  const OriginalCertificateOfOriginText0Part0: Plain := "<h2>Original Certificate of "
  const OriginalCertificateOfOriginText0Part1: Plain := "Origin</h2>\n<p>Date: "
  const OriginalCertificateOfOriginText0: Plain :=
    OriginalCertificateOfOriginText0Part0 +
    OriginalCertificateOfOriginText0Part1
  const OriginalCertificateOfOriginText1: Plain := "</p>\n<p>Certificate No: "
  const OriginalCertificateOfOriginText2: Plain := "</p>\n<p>Exporter: "
  const OriginalCertificateOfOriginText3: Plain := "</p>\n<p>Consignee: "
  const OriginalCertificateOfOriginText4: Plain := "</p>\n<p>Product: "
  const OriginalCertificateOfOriginText5: Plain := " (HS: "
  const OriginalCertificateOfOriginText6: Plain := ")</p>\n<p>Quantity: "
  const OriginalCertificateOfOriginText7: Plain := "</p>\n<p>Country of Origin: "
  const OriginalCertificateOfOriginText8: Plain := "</p>\n<p>Authorized Signatory: "
  const OriginalCertificateOfOriginText9Part0: Plain := "</p>\n<p>Declaration: This "
  const OriginalCertificateOfOriginText9Part1: Plain := "certificate attests to the origin "
  const OriginalCertificateOfOriginText9Part2: Plain := "of the goods for customs "
  const OriginalCertificateOfOriginText9Part3: Plain := "purposes.</p>"
  const OriginalCertificateOfOriginText9: Plain :=
    OriginalCertificateOfOriginText9Part0 +
    OriginalCertificateOfOriginText9Part1 +
    OriginalCertificateOfOriginText9Part2 +
    OriginalCertificateOfOriginText9Part3
  const OriginalCertificateOfOriginGaps0: seq<Gap> := [
    Gap("date", OriginalCertificateOfOriginText1),
    Gap("certificateNo", OriginalCertificateOfOriginText2),
    Gap("exporter", OriginalCertificateOfOriginText3),
    Gap("consignee", OriginalCertificateOfOriginText4)]
  const OriginalCertificateOfOriginGaps1: seq<Gap> := [
    Gap("product", OriginalCertificateOfOriginText5),
    Gap("hsCode", OriginalCertificateOfOriginText6),
    Gap("quantity", OriginalCertificateOfOriginText7),
    Gap("countryOrigin", OriginalCertificateOfOriginText8)]
  const OriginalCertificateOfOriginGaps2: seq<Gap> := [
    Gap("authorizedSign", OriginalCertificateOfOriginText9)]
  const OriginalCertificateOfOrigin: Body := Body(OriginalCertificateOfOriginText0, OriginalCertificateOfOriginGaps0 + OriginalCertificateOfOriginGaps1 + OriginalCertificateOfOriginGaps2)

  const OriginalCertificateOfOriginFields: seq<FieldSpec> := [
    FieldSpec("date", "date"),
    FieldSpec("exporter", "text"),
    FieldSpec("consignee", "text"),
    FieldSpec("product", "text"),
    FieldSpec("hsCode", "text"),
    FieldSpec("quantity", "text"),
    FieldSpec("countryOrigin", "text"),
    FieldSpec("certificateNo", "text"),
    FieldSpec("authorizedSign", "text")]

  const LocalTemplates: seq<DocTemplate> := [
    DocTemplate("fumigation", "FUMIGATION CERTIFICATE",
      FumigationFields, Assemble(Segments(Fumigation))),
    DocTemplate("apeda_spice_board", "APEDA / SPICE BOARD CERTIFICATE",
      ApedaSpiceBoardFields, Assemble(Segments(ApedaSpiceBoard))),
    DocTemplate("draft_bill_of_lading", "DRAFT BILL OF LADING",
      DraftBillOfLadingFields, Assemble(Segments(DraftBillOfLading))),
    DocTemplate("draft_certificate_of_origin", "DRAFT CERTIFICATE OF ORIGIN",
      DraftCertificateOfOriginFields, Assemble(Segments(DraftCertificateOfOrigin))),
    DocTemplate("draft_shipping_bill", "DRAFT SHIPPING BILL",
      DraftShippingBillFields, Assemble(Segments(DraftShippingBill))),
    DocTemplate("original_shipping_bill", "ORIGINAL SHIPPING BILL",
      OriginalShippingBillFields, Assemble(Segments(OriginalShippingBill))),
    DocTemplate("original_bill_of_lading", "ORIGINAL BILL OF LADING",
      OriginalBillOfLadingFields, Assemble(Segments(OriginalBillOfLading))),
    DocTemplate("original_certificate_of_origin", "ORIGINAL CERTIFICATE OF ORIGIN",
      OriginalCertificateOfOriginFields, Assemble(Segments(OriginalCertificateOfOrigin)))]

  // Each built-in body names exactly the fields of its template.
  lemma FumigationPlaceholders()
    ensures forall n :: Mentions(Segments(Fumigation), n) <==> n in FieldNames(FumigationFields)
  {
    FumigationNames();
    forall n ensures Mentions(Segments(Fumigation), n) <==> n in FieldNames(FumigationFields) {
      MentionsGapNames(Fumigation, n);
    }
  }

  lemma FumigationNames()
    ensures GapNames(Fumigation) == ["date", "certificateNo", "consignor", "consignee", "vessel", "voyage", "packages", "grossWeight", "fumigant", "treatmentDate", "issuer"]
    ensures FieldNames(FumigationFields) == ["date", "consignor", "consignee", "vessel", "voyage", "packages", "grossWeight", "fumigant", "treatmentDate", "certificateNo", "issuer"]
  {
    FumigationGapNames();
  }

  lemma FumigationGapNames()
    ensures GapNames(Fumigation) == ["date", "certificateNo", "consignor", "consignee", "vessel", "voyage", "packages", "grossWeight", "fumigant", "treatmentDate", "issuer"]
  {
  }

  lemma ApedaSpiceBoardPlaceholders()
    ensures forall n :: Mentions(Segments(ApedaSpiceBoard), n) <==> n in FieldNames(ApedaSpiceBoardFields)
  {
    ApedaSpiceBoardNames();
    forall n ensures Mentions(Segments(ApedaSpiceBoard), n) <==> n in FieldNames(ApedaSpiceBoardFields) {
      MentionsGapNames(ApedaSpiceBoard, n);
    }
  }

  lemma ApedaSpiceBoardNames()
    ensures GapNames(ApedaSpiceBoard) == ["date", "certificateNo", "exporter", "consignee", "product", "hsCode", "quantity", "netWeight", "lot", "authority"]
    ensures FieldNames(ApedaSpiceBoardFields) == ["date", "exporter", "consignee", "product", "hsCode", "quantity", "netWeight", "lot", "certificateNo", "authority"]
  {
    ApedaSpiceBoardGapNames();
  }

  lemma ApedaSpiceBoardGapNames()
    ensures GapNames(ApedaSpiceBoard) == ["date", "certificateNo", "exporter", "consignee", "product", "hsCode", "quantity", "netWeight", "lot", "authority"]
  {
  }

  lemma DraftBillOfLadingPlaceholders()
    ensures forall n :: Mentions(Segments(DraftBillOfLading), n) <==> n in FieldNames(DraftBillOfLadingFields)
  {
    DraftBillOfLadingNames();
    forall n ensures Mentions(Segments(DraftBillOfLading), n) <==> n in FieldNames(DraftBillOfLadingFields) {
      MentionsGapNames(DraftBillOfLading, n);
    }
  }

  lemma DraftBillOfLadingNames()
    ensures GapNames(DraftBillOfLading) == ["date", "shipper", "consignee", "notifyParty", "vessel", "voyage", "portLoading", "portDischarge", "marks", "descriptionGoods", "containers", "grossWeight", "shipperRef"]
    ensures FieldNames(DraftBillOfLadingFields) == ["date", "shipper", "consignee", "notifyParty", "vessel", "voyage", "portLoading", "portDischarge", "marks", "descriptionGoods", "containers", "grossWeight", "shipperRef"]
  {
    DraftBillOfLadingGapNames();
  }

  lemma DraftBillOfLadingGapNames()
    ensures GapNames(DraftBillOfLading) == ["date", "shipper", "consignee", "notifyParty", "vessel", "voyage", "portLoading", "portDischarge", "marks", "descriptionGoods", "containers", "grossWeight", "shipperRef"]
  {
  }

  lemma DraftCertificateOfOriginPlaceholders()
    ensures forall n :: Mentions(Segments(DraftCertificateOfOrigin), n) <==> n in FieldNames(DraftCertificateOfOriginFields)
  {
    DraftCertificateOfOriginNames();
    forall n ensures Mentions(Segments(DraftCertificateOfOrigin), n) <==> n in FieldNames(DraftCertificateOfOriginFields) {
      MentionsGapNames(DraftCertificateOfOrigin, n);
    }
  }

  lemma DraftCertificateOfOriginNames()
    ensures GapNames(DraftCertificateOfOrigin) == ["date", "exporter", "consignee", "product", "hsCode", "quantity", "invoiceNo", "countryOrigin", "countryOrigin", "declarationBy"]
    ensures FieldNames(DraftCertificateOfOriginFields) == ["date", "exporter", "consignee", "countryOrigin", "product", "hsCode", "quantity", "invoiceNo", "declarationBy"]
  {
    DraftCertificateOfOriginGapNames();
  }

  lemma DraftCertificateOfOriginGapNames()
    ensures GapNames(DraftCertificateOfOrigin) == ["date", "exporter", "consignee", "product", "hsCode", "quantity", "invoiceNo", "countryOrigin", "countryOrigin", "declarationBy"]
  {
  }

  lemma DraftShippingBillPlaceholders()
    ensures forall n :: Mentions(Segments(DraftShippingBill), n) <==> n in FieldNames(DraftShippingBillFields)
  {
    DraftShippingBillNames();
    forall n ensures Mentions(Segments(DraftShippingBill), n) <==> n in FieldNames(DraftShippingBillFields) {
      MentionsGapNames(DraftShippingBill, n);
    }
  }

  lemma DraftShippingBillNames()
    ensures GapNames(DraftShippingBill) == ["date", "exporter", "beneficiary", "invoiceNo", "shipperRef", "portOfLoading", "portOfDestination", "itemDetails", "grossWeight", "freight"]
    ensures FieldNames(DraftShippingBillFields) == ["date", "exporter", "beneficiary", "invoiceNo", "shipperRef", "portOfLoading", "portOfDestination", "itemDetails", "grossWeight", "freight"]
  {
    DraftShippingBillGapNames();
  }

  lemma DraftShippingBillGapNames()
    ensures GapNames(DraftShippingBill) == ["date", "exporter", "beneficiary", "invoiceNo", "shipperRef", "portOfLoading", "portOfDestination", "itemDetails", "grossWeight", "freight"]
  {
  }

  lemma OriginalShippingBillPlaceholders()
    ensures forall n :: Mentions(Segments(OriginalShippingBill), n) <==> n in FieldNames(OriginalShippingBillFields)
  {
    OriginalShippingBillNames();
    forall n ensures Mentions(Segments(OriginalShippingBill), n) <==> n in FieldNames(OriginalShippingBillFields) {
      MentionsGapNames(OriginalShippingBill, n);
    }
  }

  lemma OriginalShippingBillNames()
    ensures GapNames(OriginalShippingBill) == ["date", "shippingBillNo", "exporter", "consignee", "invoiceNo", "hsDetails", "packages", "netWeight", "declaration"]
    ensures FieldNames(OriginalShippingBillFields) == ["date", "exporter", "consignee", "shippingBillNo", "invoiceNo", "hsDetails", "packages", "netWeight", "declaration"]
  {
    OriginalShippingBillGapNames();
  }

  lemma OriginalShippingBillGapNames()
    ensures GapNames(OriginalShippingBill) == ["date", "shippingBillNo", "exporter", "consignee", "invoiceNo", "hsDetails", "packages", "netWeight", "declaration"]
  {
  }

  lemma OriginalBillOfLadingPlaceholders()
    ensures forall n :: Mentions(Segments(OriginalBillOfLading), n) <==> n in FieldNames(OriginalBillOfLadingFields)
  {
    OriginalBillOfLadingNames();
    forall n ensures Mentions(Segments(OriginalBillOfLading), n) <==> n in FieldNames(OriginalBillOfLadingFields) {
      MentionsGapNames(OriginalBillOfLading, n);
    }
  }

  lemma OriginalBillOfLadingNames()
    ensures GapNames(OriginalBillOfLading) == ["date", "blNumber", "shipper", "consignee", "notifyParty", "vessel", "voyage", "containerNos", "descriptionGoods", "grossWeight", "placeOfIssue", "carrierSign"]
    ensures FieldNames(OriginalBillOfLadingFields) == ["date", "shipper", "consignee", "notifyParty", "blNumber", "vessel", "voyage", "containerNos", "descriptionGoods", "grossWeight", "placeOfIssue", "carrierSign"]
  {
    OriginalBillOfLadingGapNames();
  }

  lemma OriginalBillOfLadingGapNames()
    ensures GapNames(OriginalBillOfLading) == ["date", "blNumber", "shipper", "consignee", "notifyParty", "vessel", "voyage", "containerNos", "descriptionGoods", "grossWeight", "placeOfIssue", "carrierSign"]
  {
  }

  lemma OriginalCertificateOfOriginPlaceholders()
    ensures forall n :: Mentions(Segments(OriginalCertificateOfOrigin), n) <==> n in FieldNames(OriginalCertificateOfOriginFields)
  {
    OriginalCertificateOfOriginNames();
    forall n ensures Mentions(Segments(OriginalCertificateOfOrigin), n) <==> n in FieldNames(OriginalCertificateOfOriginFields) {
      MentionsGapNames(OriginalCertificateOfOrigin, n);
    }
  }

  lemma OriginalCertificateOfOriginNames()
    ensures GapNames(OriginalCertificateOfOrigin) == ["date", "certificateNo", "exporter", "consignee", "product", "hsCode", "quantity", "countryOrigin", "authorizedSign"]
    ensures FieldNames(OriginalCertificateOfOriginFields) == ["date", "exporter", "consignee", "product", "hsCode", "quantity", "countryOrigin", "certificateNo", "authorizedSign"]
  {
    OriginalCertificateOfOriginGapNames();
  }

  lemma OriginalCertificateOfOriginGapNames()
    ensures GapNames(OriginalCertificateOfOrigin) == ["date", "certificateNo", "exporter", "consignee", "product", "hsCode", "quantity", "countryOrigin", "authorizedSign"]
  {
  }


  /** The built-in bodies, in table order. */
  const LocalBodies: seq<Body> := [
    Fumigation, ApedaSpiceBoard, DraftBillOfLading, DraftCertificateOfOrigin,
    DraftShippingBill, OriginalShippingBill, OriginalBillOfLading, OriginalCertificateOfOrigin]

  /** Each built-in body's placeholders are exactly its template's field names. */
  lemma TemplatePlaceholders(k: nat)
    requires k < |LocalTemplates|
    ensures k < |LocalBodies| && LocalTemplates[k].templateBody == Assemble(Segments(LocalBodies[k]))
    ensures forall n :: Mentions(Segments(LocalBodies[k]), n) <==> n in FieldNames(LocalTemplates[k].fields)
  {
    if k == 0 {
      FumigationPlaceholders();
      assert LocalBodies[0] == Fumigation && LocalTemplates[0].fields == FumigationFields;
    } else if k == 1 {
      ApedaSpiceBoardPlaceholders();
      assert LocalBodies[1] == ApedaSpiceBoard && LocalTemplates[1].fields == ApedaSpiceBoardFields;
    } else if k == 2 {
      DraftBillOfLadingPlaceholders();
      assert LocalBodies[2] == DraftBillOfLading && LocalTemplates[2].fields == DraftBillOfLadingFields;
    } else if k == 3 {
      DraftCertificateOfOriginPlaceholders();
      assert LocalBodies[3] == DraftCertificateOfOrigin && LocalTemplates[3].fields == DraftCertificateOfOriginFields;
    } else if k == 4 {
      DraftShippingBillPlaceholders();
      assert LocalBodies[4] == DraftShippingBill && LocalTemplates[4].fields == DraftShippingBillFields;
    } else if k == 5 {
      OriginalShippingBillPlaceholders();
      assert LocalBodies[5] == OriginalShippingBill && LocalTemplates[5].fields == OriginalShippingBillFields;
    } else if k == 6 {
      OriginalBillOfLadingPlaceholders();
      assert LocalBodies[6] == OriginalBillOfLading && LocalTemplates[6].fields == OriginalBillOfLadingFields;
    } else {
      OriginalCertificateOfOriginPlaceholders();
      assert LocalBodies[7] == OriginalCertificateOfOrigin && LocalTemplates[7].fields == OriginalCertificateOfOriginFields;
    }
  }

  /** The eight template ids are distinct. */
  lemma IdsDistinct()
    ensures forall i, j | 0 <= i < j < |LocalTemplates| :: LocalTemplates[i].id != LocalTemplates[j].id
  {
  }

  /** `safeEscape`: nothing for a missing value, otherwise the text with `<` and `>` escaped and `&` kept. */
  function SafeEscape(v: Option<string>): (r: string)
    ensures v.None? ==> r == ""
    ensures '<' !in r && '>' !in r
    ensures v.Some? && '<' !in v.value && '>' !in v.value ==> r == v.value
    ensures v.Some? && '&' !in v.value ==> Html.UnescapeAngles(r) == v.value
  {
    match v
    case None => ""
    case Some(s) =>
      var r := Html.EscapeAngles(s);
      assert '&' !in s ==> Html.UnescapeAngles(r) == s by {
        if '&' !in s {
          Html.EscapeAnglesRoundTrip(s);
        }
      }
      r
  }

  /** A `&` in a value is passed through, not escaped. */
  lemma SafeEscapeKeepsAmpersand(s: string)
    ensures SafeEscape(Some("&" + s)) == "&" + SafeEscape(Some(s))
  {
    Html.EscapeAnglesKeepsAmpersand(s);
  }

  /** The key a match looks up: the capture group, trimmed. */
  function MatchKey(raw: string): (k: string)
    requires IsRaw(raw)
    ensures k == Trim(Capture(raw))
    ensures k == [] || (!IsSpace(k[0]) && !IsSpace(k[|k| - 1]))
  {
    Trim(Capture(raw))
  }

  /** Blanks around a clean key inside the braces do not change the key looked up. */
  lemma MatchKeyTrimmed(w1: string, k: string, w2: string)
    requires AllSpace(w1) && AllSpace(w2) && IsCleanKey(k) && '}' !in w1 && '}' !in w2
    ensures IsRaw(w1 + k + w2) && MatchKey(w1 + k + w2) == k
  {
    assert w1 + k + w2 == w1 + (k + w2);
    CaptureLeadingSpace(w1, k + w2);
    TrimSpaceAfter(k, w2);
  }

  /** What one match is replaced by: the escaped value of the trimmed key, or nothing when the key is absent. */
  function Replacement(values: map<string, string>, raw: string): (r: string)
    requires IsRaw(raw)
    ensures MatchKey(raw) !in values ==> r == ""
    ensures MatchKey(raw) in values ==> r == SafeEscape(Some(values[MatchKey(raw)]))
  {
    var k := MatchKey(raw);
    SafeEscape(Some(if k in values then values[k] else ""))
  }

  /** The replacement for every raw text; a raw text no match can produce is not looked up. */
  function Substitution(values: map<string, string>): string -> string {
    raw => if IsRaw(raw) then Replacement(values, raw) else ""
  }

  /** `renderTemplate(body, values)`. */
  function RenderTemplate(body: string, values: map<string, string>): (r: string)
    ensures body == "" ==> r == ""
  {
    if body == "" then "" else Expand(Tokenize(body), Substitution(values))
  }

  /** Literal text is copied, a placeholder becomes its replacement, and the replacement is never scanned again. */
  lemma RenderStep(a: string, raw: string, rest: string, values: map<string, string>)
    requires '{' !in a && IsRaw(raw)
    ensures RenderTemplate(a + Verbatim(raw) + rest, values)
         == a + Replacement(values, raw) + RenderTemplate(rest, values)
  {
    var sub := Substitution(values);
    ExpandStep(a, raw, rest, sub);
    assert sub(raw) == Replacement(values, raw);
    if rest == "" {
      assert Tokenize(rest) == [];
    }
  }

  /** A body that is one placeholder renders as its replacement. */
  lemma RenderSingle(raw: string, values: map<string, string>)
    requires IsRaw(raw)
    ensures RenderTemplate(Verbatim(raw), values) == Replacement(values, raw)
  {
    var sub := Substitution(values);
    TokenizeHole(raw, "");
    assert Verbatim(raw) + "" == Verbatim(raw);
    assert Tokenize("") == [];
    ExpandHole(raw, [], sub);
    assert sub(raw) == Replacement(values, raw);
  }

  /** A placeholder whose trimmed key is not in the form renders as the empty string. */
  lemma RenderMissingKey(raw: string, values: map<string, string>)
    requires IsRaw(raw) && MatchKey(raw) !in values
    ensures RenderTemplate(Verbatim(raw), values) == ""
  {
    RenderSingle(raw, values);
  }

  /** The key is trimmed: `{{ k }}` renders exactly as `{{k}}`. */
  lemma RenderTrimmedKey(w1: string, k: string, w2: string, values: map<string, string>)
    requires AllSpace(w1) && AllSpace(w2) && IsCleanKey(k) && '}' !in w1 && '}' !in w2
    ensures RenderTemplate(Verbatim(w1 + k + w2), values) == RenderTemplate(Verbatim(k), values)
    ensures k in values ==> RenderTemplate(Verbatim(k), values) == SafeEscape(Some(values[k]))
  {
    var raw := w1 + k + w2;
    MatchKeyTrimmed(w1, k, w2);
    CaptureClean(k);
    TrimOfTrimmed(k);
    assert MatchKey(k) == k;
    RenderSingle(raw, values);
    RenderSingle(k, values);
  }

  /** A value that looks like a placeholder is emitted as it is, never expanded. */
  lemma RenderNoRescan(key: string, inner: string, values: map<string, string>)
    requires IsCleanKey(key) && IsRaw(inner) && '<' !in inner && '>' !in inner
    requires key in values && values[key] == Verbatim(inner)
    ensures RenderTemplate(Verbatim(key), values) == Verbatim(inner)
  {
    var v := Verbatim(inner);
    VerbatimFree(inner, '<');
    VerbatimFree(inner, '>');
    assert SafeEscape(Some(v)) == v;
    CaptureClean(key);
    TrimOfTrimmed(key);
    assert MatchKey(key) == key;
    RenderSingle(key, values);
  }

  /** A built-in template renders as its literal text with each field's escaped value in place. */
  lemma RenderBuiltIn(k: nat, values: map<string, string>)
    requires k < |LocalTemplates|
    ensures k < |LocalBodies|
    ensures RenderTemplate(LocalTemplates[k].templateBody, values) == Fill(Segments(LocalBodies[k]), Substitution(values))
  {
    TemplatePlaceholders(k);
    var segs := Segments(LocalBodies[k]);
    ExpandAssembled(segs, Substitution(values));
    if Assemble(segs) == "" {
      assert Tokenize(Assemble(segs)) == [];
    }
  }

  /** The fallback of `stripHtml`: every `<…>` run is deleted and nothing else changes. */
  function StripHtmlFallback(html: string): (r: string)
    ensures forall c :: c in r ==> c in html
    ensures '<' !in html ==> r == html
    ensures forall i, j :: 0 <= i < j < |r| && r[i] == '<' ==> r[j] != '>'
  {
    StripPlain(html);
    Html.RemoveTags(html)
  }

  lemma StripPlain(s: string)
    ensures '<' !in s ==> Html.RemoveTags(s) == s
  {
    if '<' !in s {
      Html.RemoveTagsNoTag(s);
    }
  }

  /** A tag is deleted whole; the text around it is kept, whitespace included. */
  lemma StripHtmlFallbackTag(a: string, t: string, b: string)
    requires '<' !in a && '>' !in t && '<' !in b
    ensures StripHtmlFallback(a + "<" + t + ">" + b) == a + b
  {
    Html.RemoveTagsTag(a, t, b);
    Html.RemoveTagsNoTag(b);
  }

  /** What `send` posts: the rendered document as an uploaded file, or the values as JSON. */
  datatype Request =
    | Multipart(to: string, subject: string, templateId: string, values: map<string, string>, html: string, filename: string)
    | JsonPost(to: string, subject: string, templateId: string, values: map<string, string>)

  /** How the request ends: it throws, or a response with its status, `message` and `ok` fields. */
  datatype Reply = Threw | Replied(status: int, message: Option<string>, okFlag: Option<bool>)

  /** The subject of the upload: the subject typed, else the title, else `Document`. */
  function UploadSubject(subject: string, title: string): (s: string)
    ensures subject != "" ==> s == subject
    ensures subject == "" && title != "" ==> s == title
    ensures subject == "" && title == "" ==> s == "Document"
    ensures s != ""
  {
    Or(subject, Or(title, "Document"))
  }

  /** The request `send` makes, or none when the recipient is rejected or no template is selected. */
  function SendRequest(to: string, subject: string, attachHtml: bool, selected: Option<DocTemplate>, values: map<string, string>): (r: Option<Request>)
    ensures r.None? <==> !ValidRecipient(to) || selected.None?
    ensures r.Some? ==> r.value.to == to && r.value.values == values && r.value.templateId == selected.value.id
    ensures r.Some? ==> (r.value.Multipart? <==> attachHtml)
    ensures r.Some? && attachHtml ==>
      (r.value.subject == UploadSubject(subject, selected.value.title)
       && r.value.html == RenderTemplate(selected.value.templateBody, values)
       && r.value.filename == selected.value.id + ".html")
    ensures r.Some? && !attachHtml ==> r.value.subject == Or(subject, selected.value.title)
  {
    if !ValidRecipient(to) || selected.None? then None
    else
      var t := selected.value;
      if attachHtml then
        Some(Multipart(to, UploadSubject(subject, t.title), t.id, values, RenderTemplate(t.templateBody, values), t.id + ".html"))
      else Some(JsonPost(to, Or(subject, t.title), t.id, values))
  }

  /** The text of an optional `message` field, empty when absent. */
  function MessageText(m: Option<string>): string {
    if m.Some? then m.value else ""
  }

  /**
   * How `send` ends. A rejected recipient stops with an error. An upload
   * succeeds on a 2xx response; the JSON post on a 2xx response whose `ok`
   * is not `false`. Every other response, and a thrown request, opens the
   * mail client with `subject || title`. Without a selected template the
   * send and its fallback both fail.
   */
  function SendOutcome(to: string, subject: string, attachHtml: bool, selected: Option<DocTemplate>, values: map<string, string>, reply: Reply): (o: Outcome)
    ensures !ValidRecipient(to) ==> o == Outcome(Notice("error", "Enter valid recipient email."), None)
    ensures ValidRecipient(to) && selected.None? ==> o == Outcome(Notice("error", "Unable to send email."), None)
    ensures o.notice.kind == "success" <==>
      (ValidRecipient(to) && selected.Some? && reply.Replied? && Ok(reply.status) && (attachHtml || reply.okFlag != Some(false)))
    ensures o.mail.Some? <==> ValidRecipient(to) && selected.Some? && o.notice.kind != "success"
    ensures o.mail.Some? ==>
      (o.notice.kind == "warning"
       && o.mail.value == Mail(to, Or(subject, selected.value.title), RenderTemplate(selected.value.templateBody, values)))
  {
    if !ValidRecipient(to) then Outcome(Notice("error", "Enter valid recipient email."), None)
    else if selected.None? then Outcome(Notice("error", "Unable to send email."), None)
    else
      var t := selected.value;
      var mail := Mail(to, Or(subject, t.title), RenderTemplate(t.templateBody, values));
      match reply
      case Threw => Outcome(Notice("warning", "Network error \U{2014} mail client opened."), Some(mail))
      case Replied(status, message, okFlag) =>
        if attachHtml && Ok(status) then
          Outcome(Notice("success", Or(MessageText(message), "Email sent (server).")), None)
        else if !attachHtml && Ok(status) && okFlag != Some(false) then
          Outcome(Notice("success", Or(MessageText(message), "Email queued / sent.")), None)
        else Outcome(Notice("warning", "Server failed \U{2014} mail client opened."), Some(mail))
  }

  /** The upload's subject is never empty, while the JSON post sends an empty one when subject and title are both empty. */
  lemma SubjectPaths(to: string, selected: Option<DocTemplate>, values: map<string, string>)
    requires ValidRecipient(to) && selected.Some?
    ensures SendRequest(to, "", true, selected, values).value.subject != ""
    ensures selected.value.title == "" ==> SendRequest(to, "", false, selected, values).value.subject == ""
  {
  }

  /** The page state: the templates, the selected id, the form values, the preview and the message. */
  class DocsPage {
    var templates: seq<DocTemplate>
    var selectedId: string
    var values: map<string, string>
    var preview: string
    var msg: Option<Notice>

    /** The template list is never empty: it starts with the built-ins and is only replaced by a non-empty list. */
    predicate Valid()
      reads this
    {
      |templates| > 0
    }

    /** `selected`: the template with the selected id, else the first template. */
    function Selected(): (t: Option<DocTemplate>)
      reads this
      ensures t.None? <==> templates == []
      ensures t.Some? ==> t.value in templates
      ensures t.Some? && t.value.id != selectedId ==> t.value == templates[0]
    {
      match Find(templates, selectedId)
      case Some(found) => Some(found)
      case None => if templates == [] then None else Some(templates[0])
    }

    /** The state before the first effects; the selection effect then fills the form (`ApplySelection`). */
    constructor()
      ensures Valid() && templates == LocalTemplates && selectedId == "fumigation" && Selected() == Some(LocalTemplates[0])
      ensures values == map[] && preview == "" && msg == None
    {
      templates := LocalTemplates;
      selectedId := LocalTemplates[0].id;
      values := map[];
      preview := "";
      msg := None;
    }

    /** The effect that runs when the selected template changes: fresh values, their preview, no message. */
    method ApplySelection(today: string)
      modifies this
      ensures templates == old(templates) && selectedId == old(selectedId)
      ensures old(Selected()).None? ==> values == old(values) && preview == old(preview) && msg == old(msg)
      ensures old(Selected()).Some? ==>
        (values == InitialValues(old(Selected()).value.fields, today)
         && preview == RenderTemplate(old(Selected()).value.templateBody, values) && msg == None)
    {
      var selected := Selected();
      if selected.Some? {
        var initial := Defaults(selected.value.fields, today);
        values := initial;
        preview := RenderTemplate(selected.value.templateBody, initial);
        msg := None;
      }
    }

    /**
     * Choosing a template in the list. The effect depends on the selected
     * template, so it runs only when the choice changes that template: picking
     * the one already shown, or an unknown id while the first is shown, keeps
     * the form as it is.
     */
    method Select(id: string, today: string)
      requires Valid()
      modifies this
      ensures Valid() && templates == old(templates) && selectedId == id
      ensures Selected().Some?
      ensures Selected() == old(Selected()) ==> values == old(values) && preview == old(preview) && msg == old(msg)
      ensures Selected() != old(Selected()) ==>
        (values == InitialValues(Selected().value.fields, today)
         && preview == RenderTemplate(Selected().value.templateBody, values) && msg == None)
    {
      var before := Selected();
      selectedId := id;
      if Selected() != before {
        ApplySelection(today);
      }
    }

    /**
     * `load`: a 2xx response whose body is a non-empty list replaces the
     * templates and selects the first; anything else, a failed fetch
     * included (`None`), keeps the built-ins.
     */
    method Load(status: int, body: Option<seq<DocTemplate>>, today: string)
      modifies this
      ensures Ok(status) && body.Some? && |body.value| > 0 ==>
        (templates == body.value && selectedId == body.value[0].id && Selected() == Some(body.value[0])
         && values == InitialValues(body.value[0].fields, today)
         && preview == RenderTemplate(body.value[0].templateBody, values) && msg == None)
      ensures !(Ok(status) && body.Some? && |body.value| > 0) ==>
        (templates == old(templates) && selectedId == old(selectedId) && values == old(values) && preview == old(preview)
         && msg == old(msg))
      ensures old(Valid()) ==> Valid()
    {
      if Ok(status) && body.Some? && |body.value| > 0 {
        templates := body.value;
        selectedId := body.value[0].id;
        ApplySelection(today);
      }
    }

    /** `changeField`: only the named key changes, and the preview is the render of the new values. */
    method ChangeField(name: string, val: string)
      modifies this
      ensures values == old(values)[name := val]
      ensures forall k | k in old(values) && k != name :: k in values && values[k] == old(values)[k]
      ensures templates == old(templates) && selectedId == old(selectedId) && msg == old(msg)
      ensures Selected().Some? ==> preview == RenderTemplate(Selected().value.templateBody, values)
      ensures Selected().None? ==> preview == ""
    {
      values := values[name := val];
      var selected := Selected();
      if selected.Some? {
        preview := RenderTemplate(selected.value.templateBody, values);
      } else {
        preview := "";
      }
    }

    /** The Reset button: the same values and preview as on selection; the message stays. */
    method Reset(today: string)
      modifies this
      ensures templates == old(templates) && selectedId == old(selectedId) && msg == old(msg)
      ensures Selected().None? ==> values == old(values) && preview == old(preview)
      ensures Selected().Some? ==>
        (values == InitialValues(Selected().value.fields, today)
         && preview == RenderTemplate(Selected().value.templateBody, values))
    {
      var selected := Selected();
      if selected.Some? {
        var reset := Defaults(selected.value.fields, today);
        values := reset;
        preview := RenderTemplate(selected.value.templateBody, reset);
      }
    }

    /** `send`: the request made, if any, and the message shown once the reply is in. */
    method Send(to: string, subject: string, attachHtml: bool, reply: Reply) returns (request: Option<Request>, outcome: Outcome)
      modifies this
      ensures request == SendRequest(to, subject, attachHtml, old(Selected()), old(values))
      ensures outcome == SendOutcome(to, subject, attachHtml, old(Selected()), old(values), reply)
      ensures msg == Some(outcome.notice)
      ensures templates == old(templates) && selectedId == old(selectedId) && values == old(values) && preview == old(preview)
    {
      var selected := Selected();
      request := SendRequest(to, subject, attachHtml, selected, values);
      outcome := SendOutcome(to, subject, attachHtml, selected, values, reply);
      msg := Some(outcome.notice);
    }
  }

  /**
   * The page as first shown: the state the constructor sets up, then the
   * selection effect that fills the form with the first template's defaults.
   */
  method Mount(today: string) returns (p: DocsPage)
    ensures fresh(p) && p.Valid() && p.templates == LocalTemplates && p.selectedId == "fumigation"
    ensures p.values == InitialValues(LocalTemplates[0].fields, today)
    ensures p.preview == RenderTemplate(LocalTemplates[0].templateBody, p.values) && p.msg == None
  {
    p := new DocsPage();
    p.ApplySelection(today);
  }

  /** With the built-in templates, the starting form has a value for every placeholder of the selected body. */
  lemma DefaultsCoverPlaceholders(k: nat, today: string, n: string)
    requires k < |LocalTemplates| && Mentions(Segments(LocalBodies[k]), n)
    ensures n in InitialValues(LocalTemplates[k].fields, today)
  {
    TemplatePlaceholders(k);
    InitialValuesKeys(LocalTemplates[k].fields, today);
    var i :| 0 <= i < |LocalTemplates[k].fields| && FieldNames(LocalTemplates[k].fields)[i] == n;
    assert LocalTemplates[k].fields[i] in LocalTemplates[k].fields;
  }
}
